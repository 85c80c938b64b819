/**
 * The supervisor graph: the model picks tools (`supervisor`), the tool calls
 * are carried out (`supervisor_tools`), and once the model stops, finishes or
 * runs out of iterations the accumulated data is structured
 * (`structure_output`).
 *
 * Every node is a step from the state to a command (the next node and the
 * keys it updates); `RunSupervisor` drives the steps from the entry node.
 * The two language models, the research sub-graph, the message rendering
 * helpers and the configured iteration cap are fields of `SupervisorOracles`;
 * the research-type registry is passed as its contents.
 */
module SupervisorGraph {
  import opened Wrappers
  import opened Errors
  import opened PyStr
  import opened State
  import opened Messages
  import opened Templates
  import opened ResearchTypeBase
  import ResearchTypeRegistry
  import ResearchEvents

  // ---------------------------------------------------------------------
  // Messages, state, commands and oracles
  // ---------------------------------------------------------------------

  /** A message of the conversation history: a model reply with its tool calls, or a tool's answer. */
  datatype Message =
    | AiMessage(toolCalls: seq<ToolCall<string>>)
    | ToolMessage(content: string, toolCallId: string, name: string)

  type GraphState = SupervisorState<Message>

  datatype Node = SupervisorNode | SupervisorToolsNode | StructureOutputNode

  /**
   * The keys a command writes; `None` leaves a key as it is.  The history is
   * what the command hands to the history's reducer, which appends it.
   */
  datatype Update = Update(
    existingData: Option<Option<Record>>,
    history: seq<Message>,
    usedDomains: Option<seq<string>>,
    dataSummary: Option<string>,
    iterationCount: Option<int>)

  const NoUpdate: Update := Update(None, [], None, None, None)

  datatype Command = Command(goto: Node, update: Update)

  /** Keys without a reducer are replaced; the history goes through the override reducer, which appends a list. */
  function Apply(s: GraphState, u: Update): GraphState {
    s.(existingData := u.existingData.GetOr(s.existingData),
       conversationHistory := s.conversationHistory + u.history,
       usedDomains := if u.usedDomains.Some? then u.usedDomains else s.usedDomains,
       dataSummary := if u.dataSummary.Some? then u.dataSummary else s.dataSummary,
       iterationCount := if u.iterationCount.Some? then u.iterationCount else s.iterationCount)
  }

  datatype SupervisorOracles<E, P> = SupervisorOracles(
    /** `get_buffer_string_with_tools` on the history. */
    bufferString: seq<Message> -> string,
    /** The text `format` renders a message as. */
    showMessage: Message -> string,
    /** The tool-calling model bound to these tools, on the system prompt: the tool calls of its reply. */
    decide: (seq<string>, string) -> seq<ToolCall<string>>,
    /** The research sub-graph on (question, existing data, used domains). */
    research: (string, Option<Record>, seq<string>) -> Result<ResearchEvents.ResearchOutput, Exception>,
    /** The text `format` renders the accumulated data as. */
    showData: Option<Record> -> string,
    /** The summarizing model on the formatted summarizer prompt: the content of its reply. */
    summarize: string -> string,
    /** The structuring calls of `structure_output`. */
    structuring: StructuringOracles<E, P>,
    /** `MAX_TOOL_CALL_ITERATIONS`, from the configuration. */
    maxIterations: int)

  const ResearchEventsToolName: string := "ResearchEventsTool"
  const FinishResearchToolName: string := "FinishResearchTool"
  const ThinkToolName: string := "think_tool"

  /** The tools every research type gets, before its own. */
  const BaseTools: seq<string> := [ResearchEventsToolName, FinishResearchToolName, ThinkToolName]

  /** What the supervisor prompt shows when no summary is stored. */
  const MissingSummary: string := "Everything is missing"

  /** The content of the tool message answering a research call. */
  const ResearchDoneMessage: string := "Called ResearchEventsTool and returned research data"

  // ---------------------------------------------------------------------
  // supervisor
  // ---------------------------------------------------------------------

  /** The `last_message` argument: "" when the history renders empty, else the last message. */
  function LastMessageText<E, P>(history: seq<Message>, o: SupervisorOracles<E, P>): Result<string, Exception> {
    if |o.bufferString(history)| == 0 then Success("")
    else if history == [] then Failure(IndexError)
    else Success(o.showMessage(history[|history| - 1]))
  }

  /**
   * One supervisor turn: look the type up, format its supervisor prompt, ask
   * the model, append its reply to the history and count the turn.
   */
  function SupervisorStep<E, P>(s: GraphState, reg: ResearchTypeRegistry.Snapshot, o: SupervisorOracles<E, P>)
    : (r: Result<Command, Exception>)
    ensures ResearchTypeRegistry.Lookup(reg, ResearchTypeName(s)).Failure? ==>
              r == Failure(ResearchTypeRegistry.Lookup(reg, ResearchTypeName(s)).error)
    ensures r.Success? ==>
              var next := Apply(s, r.value.update);
              && r.value.goto == SupervisorToolsNode
              && IterationCount(next) == IterationCount(s) + 1
              && |next.conversationHistory| == |s.conversationHistory| + 1
              && s.conversationHistory <= next.conversationHistory
              && next.conversationHistory[|s.conversationHistory|].AiMessage?
              && next.existingData == s.existingData && next.usedDomains == s.usedDomains
              && next.dataSummary == s.dataSummary
  {
    match ResearchTypeRegistry.Lookup(reg, ResearchTypeName(s))
    case Failure(e) => Failure(e)
    case Success(t) =>
      match LastMessageText(s.conversationHistory, o)
      case Failure(e) => Failure(e)
      case Success(last) =>
        match FormatPrompt(t.supervisorPrompt, SupervisorArgs(s.researchSubject, s.dataSummary.GetOr(MissingSummary), last))
        case Failure(e) => Failure(e)
        case Success(prompt) =>
          var reply := AiMessage(o.decide(BaseTools + AdditionalTools(t), prompt));
          Success(Command(SupervisorToolsNode, Update(None, [reply], None, None, Some(IterationCount(s) + 1))))
  }

  /**
   * With a registered well-formed type and a history that is not empty when
   * it renders non-empty, the turn succeeds: the model is offered the three
   * standard tools and the type's own, and its prompt shows the subject, the
   * stored summary ("Everything is missing" when none is stored) and the
   * last message.
   */
  lemma SupervisorTurn<E, P>(s: GraphState, reg: ResearchTypeRegistry.Snapshot, o: SupervisorOracles<E, P>)
    requires ResearchTypeRegistry.Lookup(reg, ResearchTypeName(s)).Success?
    requires WellFormed(ResearchTypeRegistry.Lookup(reg, ResearchTypeName(s)).value)
    requires |o.bufferString(s.conversationHistory)| > 0 ==> s.conversationHistory != []
    ensures var t := ResearchTypeRegistry.Lookup(reg, ResearchTypeName(s)).value;
            var summary := s.dataSummary.GetOr(MissingSummary);
            var last := LastMessageText(s.conversationHistory, o).value;
            var prompt := FormatPrompt(t.supervisorPrompt, SupervisorArgs(s.researchSubject, summary, last));
            var r := SupervisorStep(s, reg, o);
            && r.Success? && prompt.Success?
            && Contains(prompt.value, s.researchSubject) && Contains(prompt.value, summary) && Contains(prompt.value, last)
            && r.value.update.history == [AiMessage(o.decide(BaseTools + AdditionalTools(t), prompt.value))]
  {
    var t := ResearchTypeRegistry.Lookup(reg, ResearchTypeName(s)).value;
    var summary := s.dataSummary.GetOr(MissingSummary);
    var last := LastMessageText(s.conversationHistory, o).value;
    SupervisorPromptFormats(t, s.researchSubject, summary, last);
  }

  // ---------------------------------------------------------------------
  // supervisor_tools: the loop over the tool calls
  // ---------------------------------------------------------------------

  /** Where the loop over the tool calls stands: stopped at a Finish call, raised, or still collecting. */
  datatype Scan =
    | Finished
    | Aborted(error: Exception)
    | Scanned(thinkMessages: seq<Message>, researchCalls: seq<ToolCall<string>>)

  /** The tool message answering a `think_tool` call: its reflection, echoed. */
  function Echo(c: ToolCall<string>): Message {
    ToolMessage(if "reflection" in c.args then c.args["reflection"] else "", c.id, ThinkToolName)
  }

  /** The loop body on one more tool call. */
  function ScanCall(acc: Scan, c: ToolCall<string>): Scan {
    if !acc.Scanned? then acc
    else if c.name == FinishResearchToolName then Finished
    else if c.name == ThinkToolName then
      if "reflection" in c.args then Scanned(acc.thinkMessages + [Echo(c)], acc.researchCalls)
      else Aborted(KeyError("reflection"))
    else if c.name == ResearchEventsToolName then Scanned(acc.thinkMessages, acc.researchCalls + [c])
    else acc
  }

  /** The loop over the tool calls, in order. */
  function ScanCalls(calls: seq<ToolCall<string>>): Scan
    decreases |calls|
  {
    if calls == [] then Scanned([], []) else ScanCall(ScanCalls(calls[..|calls| - 1]), calls[|calls| - 1])
  }

  /** A call that ends the loop: a Finish call, or a think call without its argument. */
  predicate Stops(c: ToolCall<string>) {
    c.name == FinishResearchToolName || (c.name == ThinkToolName && "reflection" !in c.args)
  }

  /** The calls of `calls` to tool `name`, in order. */
  function CallsTo(calls: seq<ToolCall<string>>, name: string): (r: seq<ToolCall<string>>)
    ensures forall c :: c in r ==> c in calls && c.name == name
    decreases |calls|
  {
    if calls == [] then []
    else
      var init := calls[..|calls| - 1];
      assert forall c :: c in init ==> c in calls;
      CallsTo(init, name) + (if calls[|calls| - 1].name == name then [calls[|calls| - 1]] else [])
  }

  /** Once the loop has stopped, later calls change nothing. */
  lemma {:induction false} ScanAbsorbs(calls: seq<ToolCall<string>>, i: nat)
    requires i <= |calls| && !ScanCalls(calls[..i]).Scanned?
    ensures ScanCalls(calls) == ScanCalls(calls[..i])
    decreases |calls|
  {
    if i < |calls| {
      var init := calls[..|calls| - 1];
      assert init[..i] == calls[..i];
      ScanAbsorbs(init, i);
    } else {
      assert calls[..i] == calls;
    }
  }

  /**
   * Without a stopping call the loop goes through every call: one echo per
   * think call and every research call, each in call order.
   */
  lemma {:induction false} ScanWithoutStop(calls: seq<ToolCall<string>>)
    requires forall i :: 0 <= i < |calls| ==> !Stops(calls[i])
    ensures ScanCalls(calls) == Scanned(Echoes(CallsTo(calls, ThinkToolName)), CallsTo(calls, ResearchEventsToolName))
    decreases |calls|
  {
    if calls != [] {
      var init := calls[..|calls| - 1];
      ScanWithoutStop(init);
      var thinks := CallsTo(init, ThinkToolName);
      if calls[|calls| - 1].name == ThinkToolName {
        assert Echoes(thinks + [calls[|calls| - 1]]) == Echoes(thinks) + [Echo(calls[|calls| - 1])];
      } else {
        assert thinks + [] == thinks;
      }
    }
  }

  /** The echoes of the think calls, in order. */
  function Echoes(thinks: seq<ToolCall<string>>): (r: seq<Message>)
    ensures |r| == |thinks| && forall k :: 0 <= k < |thinks| ==> r[k] == Echo(thinks[k])
  {
    seq(|thinks|, k requires 0 <= k < |thinks| => Echo(thinks[k]))
  }

  /** Without a stopping call among the first `n` calls the loop is still collecting after them. */
  lemma {:induction false} ScanContinues(calls: seq<ToolCall<string>>, n: nat)
    requires n <= |calls| && forall j :: 0 <= j < n ==> !Stops(calls[j])
    ensures ScanCalls(calls[..n]).Scanned?
  {
    if n > 0 {
      assert calls[..n][..n - 1] == calls[..n - 1];
      ScanContinues(calls, n - 1);
    }
  }

  /**
   * The first stopping call decides: a Finish call ends the turn for
   * structuring and drops what was collected before it; a think call without
   * its argument raises `KeyError`.
   */
  lemma FirstStopDecides(calls: seq<ToolCall<string>>, i: nat)
    requires i < |calls| && Stops(calls[i])
    requires forall j :: 0 <= j < i ==> !Stops(calls[j])
    ensures ScanCalls(calls) == StopOutcome(calls[i])
  {
    StopPrefix(calls, i);
    ScanAbsorbs(calls, i + 1);
  }

  /** What a stopping call leaves: a Finish call `Finished`, a think call without its argument `KeyError`. */
  function StopOutcome(c: ToolCall<string>): (r: Scan)
    ensures !r.Scanned?
  {
    if c.name == FinishResearchToolName then Finished else Aborted(KeyError("reflection"))
  }

  /** The loop up to and including the first stopping call. */
  lemma StopPrefix(calls: seq<ToolCall<string>>, i: nat)
    requires i < |calls| && Stops(calls[i])
    requires forall j :: 0 <= j < i ==> !Stops(calls[j])
    ensures ScanCalls(calls[..i + 1]) == StopOutcome(calls[i])
  {
    ScanContinues(calls, i);
    ScanSnoc(calls, i);
    StopStep(ScanCalls(calls[..i]), calls[i]);
  }

  /** The loop over one more call. */
  lemma ScanSnoc(calls: seq<ToolCall<string>>, n: nat)
    requires n < |calls|
    ensures ScanCalls(calls[..n + 1]) == ScanCall(ScanCalls(calls[..n]), calls[n])
  {
    assert calls[..n + 1][..n] == calls[..n];
  }

  /** A stopping call met while collecting stops the loop. */
  lemma StopStep(acc: Scan, c: ToolCall<string>)
    requires acc.Scanned? && Stops(c)
    ensures ScanCall(acc, c) == StopOutcome(c)
  {
  }

  /** The reflection each echo carries is the one of its think call. */
  lemma EchoCarriesReflection(c: ToolCall<string>)
    requires c.name == ThinkToolName && !Stops(c)
    ensures Echo(c) == ToolMessage(c.args["reflection"], c.id, ThinkToolName)
  {
  }

  // ---------------------------------------------------------------------
  // supervisor_tools: the research calls
  // ---------------------------------------------------------------------

  /** One research call on the turn's snapshot: a missing question raises `KeyError`. */
  function ResearchOne<E, P>(c: ToolCall<string>, existing: Option<Record>, used: seq<string>, o: SupervisorOracles<E, P>)
    : Result<ResearchEvents.ResearchOutput, Exception>
  {
    if "research_question" in c.args then o.research(c.args["research_question"], existing, used)
    else Failure(KeyError("research_question"))
  }

  /**
   * The research calls, each seeded with the same existing data and used
   * domains; any failure fails the batch, otherwise the results come back in
   * call order.
   */
  function GatherResearch<E, P>(calls: seq<ToolCall<string>>, existing: Option<Record>, used: seq<string>,
                                o: SupervisorOracles<E, P>): (r: Result<seq<ResearchEvents.ResearchOutput>, Exception>)
    ensures r.Success? <==> forall k :: 0 <= k < |calls| ==> ResearchOne(calls[k], existing, used, o).Success?
    ensures r.Success? ==> |r.value| == |calls|
                           && forall k :: 0 <= k < |calls| ==> ResearchOne(calls[k], existing, used, o) == Success(r.value[k])
    decreases |calls|
  {
    if calls == [] then Success([])
    else
      var init := calls[..|calls| - 1];
      assert forall k :: 0 <= k < |init| ==> init[k] == calls[k];
      match GatherResearch(init, existing, used, o)
      case Failure(e) => Failure(e)
      case Success(outs) =>
        match ResearchOne(calls[|calls| - 1], existing, used, o)
        case Failure(e) => Failure(e)
        case Success(out) => Success(outs + [out])
  }

  /** Once a research call has failed, the batch fails with it. */
  lemma {:induction false} GatherAbsorbs<E, P>(calls: seq<ToolCall<string>>, existing: Option<Record>, used: seq<string>,
                                               o: SupervisorOracles<E, P>, i: nat)
    requires i <= |calls| && GatherResearch(calls[..i], existing, used, o).Failure?
    ensures GatherResearch(calls, existing, used, o) == GatherResearch(calls[..i], existing, used, o)
    decreases |calls|
  {
    if i < |calls| {
      var init := calls[..|calls| - 1];
      assert init[..i] == calls[..i];
      GatherAbsorbs(init, existing, used, o, i);
    } else {
      assert calls[..i] == calls;
    }
  }

  /** The merge loop: each result's data replaces the previous one, and its domains are appended. */
  function MergeResults(existing: Option<Record>, used: seq<string>, outs: seq<ResearchEvents.ResearchOutput>)
    : (r: (Option<Record>, seq<string>))
    decreases |outs|
  {
    if outs == [] then (existing, used)
    else
      var (_, domains) := MergeResults(existing, used, outs[..|outs| - 1]);
      (outs[|outs| - 1].existingData, domains + outs[|outs| - 1].usedDomains)
  }

  /**
   * The last result's data wins; the domains are the turn's domains followed
   * by those of every result, so a domain is in the list iff it was used
   * before or some result returned it.
   */
  lemma {:induction false} MergeResultsShape(existing: Option<Record>, used: seq<string>, outs: seq<ResearchEvents.ResearchOutput>)
    ensures outs == [] ==> MergeResults(existing, used, outs) == (existing, used)
    ensures outs != [] ==> MergeResults(existing, used, outs).0 == outs[|outs| - 1].existingData
    ensures used <= MergeResults(existing, used, outs).1
    ensures forall d :: d in MergeResults(existing, used, outs).1 <==>
                        d in used || exists k :: 0 <= k < |outs| && d in outs[k].usedDomains
    decreases |outs|
  {
    if outs != [] {
      var init := outs[..|outs| - 1];
      var last := outs[|outs| - 1];
      MergeResultsShape(existing, used, init);
      var domains := MergeResults(existing, used, init).1;
      forall d ensures d in domains + last.usedDomains <==> d in used || exists k :: 0 <= k < |outs| && d in outs[k].usedDomains {
        if d in domains + last.usedDomains && d !in used {
          if d in domains {
            var k :| 0 <= k < |init| && d in init[k].usedDomains;
            assert outs[k] == init[k];
          } else {
            assert d in outs[|outs| - 1].usedDomains;
          }
        }
        if exists k :: 0 <= k < |outs| && d in outs[k].usedDomains {
          var k :| 0 <= k < |outs| && d in outs[k].usedDomains;
          if k < |init| {
            assert init[k] == outs[k];
          }
        }
      }
    }
  }

  /** The tool messages answering the research calls, one per call, in call order. */
  function ResearchMessages(calls: seq<ToolCall<string>>): (r: seq<Message>)
    ensures |r| == |calls|
    ensures forall k :: 0 <= k < |calls| ==> r[k] == ToolMessage(ResearchDoneMessage, calls[k].id, ResearchEventsToolName)
  {
    seq(|calls|, k requires 0 <= k < |calls| => ToolMessage(ResearchDoneMessage, calls[k].id, ResearchEventsToolName))
  }

  // ---------------------------------------------------------------------
  // supervisor_tools: the node
  // ---------------------------------------------------------------------

  /**
   * What `supervisor_tools` returns or raises.  An absent existing data is
   * seeded with the type's initial record first; no tool call, or the
   * iteration cap reached, goes to structuring with nothing written.
   */
  function ToolsOutcome<E, P>(s: GraphState, reg: ResearchTypeRegistry.Snapshot, o: SupervisorOracles<E, P>)
    : (r: Result<Command, Exception>)
    ensures r.Success? ==> r.value.update.iterationCount == None
    ensures r.Success? ==> r.value.goto == SupervisorNode || r.value == Command(StructureOutputNode, NoUpdate)
    ensures r.Success? && r.value.goto == SupervisorNode ==> IterationCount(s) < o.maxIterations
  {
    match ResearchTypeRegistry.Lookup(reg, ResearchTypeName(s))
    case Failure(e) => Failure(e)
    case Success(t) =>
      var existing := if s.existingData.None? then Some(InitialData(t)) else s.existingData;
      var history := s.conversationHistory;
      if history == [] then Failure(IndexError)
      else
        var last := history[|history| - 1];
        if last.ToolMessage? then Failure(AttributeError("ToolMessage", "tool_calls"))
        else if last.toolCalls == [] || IterationCount(s) >= o.maxIterations then Success(Command(StructureOutputNode, NoUpdate))
        else AfterScan(t, s, existing, ScanCalls(last.toolCalls), o)
  }

  /** What the loop over the calls leaves decides the rest of the turn. */
  function AfterScan<E, P>(t: ResearchType, s: GraphState, existing: Option<Record>, scan: Scan,
                           o: SupervisorOracles<E, P>): (r: Result<Command, Exception>)
    ensures r.Success? ==> r.value.update.iterationCount == None
    ensures r.Success? ==> r.value.goto == SupervisorNode || r.value == Command(StructureOutputNode, NoUpdate)
  {
    match scan
    case Finished => Success(Command(StructureOutputNode, NoUpdate))
    case Aborted(e) => Failure(e)
    case Scanned(thinks, research) => Dispatched(t, s, existing, thinks, research, o)
  }

  /**
   * The rest of `supervisor_tools` once the loop has gone through: without
   * research calls the think echoes are sent back; otherwise the batch runs,
   * its results are merged and the data is summarized.
   */
  function Dispatched<E, P>(t: ResearchType, s: GraphState, existing: Option<Record>, thinks: seq<Message>,
                            research: seq<ToolCall<string>>, o: SupervisorOracles<E, P>): (r: Result<Command, Exception>)
    ensures r.Success? ==> r.value.goto == SupervisorNode && r.value.update.iterationCount == None
  {
    if research == [] then
      Success(Command(SupervisorNode, Update(Some(existing), thinks, Some(UsedDomains(s)), Some(DataSummary(s)), None)))
    else
      match GatherResearch(research, existing, UsedDomains(s), o)
      case Failure(e) => Failure(e)
      case Success(outs) =>
        var (data, domains) := MergeResults(existing, UsedDomains(s), outs);
        match FormatPrompt(t.summarizerPrompt, DataArgs(o.showData(data)))
        case Failure(e) => Failure(e)
        case Success(prompt) =>
          Success(Command(SupervisorNode, Update(Some(data), thinks + ResearchMessages(research),
                                                 Some(Distinct(domains)), Some(o.summarize(prompt)), None)))
  }

  /** `supervisor_tools`, with its loop over the tool calls, the research batch and the merge loop. */
  method SupervisorTools<E, P>(s: GraphState, reg: ResearchTypeRegistry.Snapshot, o: SupervisorOracles<E, P>)
    returns (r: Result<Command, Exception>)
    ensures r == ToolsOutcome(s, reg, o)
  {
    var lookup := ResearchTypeRegistry.Lookup(reg, ResearchTypeName(s));
    if lookup.Failure? {
      return Failure(lookup.error);
    }
    var t := lookup.value;
    var existing := s.existingData;
    if existing.None? {
      existing := Some(InitialData(t));
    }
    var summary := DataSummary(s);
    var used := UsedDomains(s);
    var history := s.conversationHistory;
    if |history| == 0 {
      return Failure(IndexError);
    }
    var last := history[|history| - 1];
    var exceeded := IterationCount(s) >= o.maxIterations;
    if last.ToolMessage? {
      return Failure(AttributeError("ToolMessage", "tool_calls"));
    }
    var calls := last.toolCalls;
    if |calls| == 0 || exceeded {
      return Success(Command(StructureOutputNode, NoUpdate));
    }
    var scan := ScanToolCalls(calls);
    if scan.Finished? {
      return Success(Command(StructureOutputNode, NoUpdate));
    } else if scan.Aborted? {
      return Failure(scan.error);
    }
    var messages, research := scan.thinkMessages, scan.researchCalls;
    if |research| > 0 {
      var outs := Gather(research, existing, used, o);
      if outs.Failure? {
        return Failure(outs.error);
      }
      var merged, replies := MergeLoop(existing, used, outs.value, research);
      existing, used := merged.0, merged.1;
      messages := messages + replies;
      used := Distinct(used);
      var prompt := FormatPrompt(t.summarizerPrompt, DataArgs(o.showData(existing)));
      if prompt.Failure? {
        return Failure(prompt.error);
      }
      summary := o.summarize(prompt.value);
    }
    r := Success(Command(SupervisorNode, Update(Some(existing), messages, Some(used), Some(summary), None)));
  }

  /** The research batch, one call after another in call order. */
  method Gather<E, P>(calls: seq<ToolCall<string>>, existing: Option<Record>, used: seq<string>, o: SupervisorOracles<E, P>)
    returns (r: Result<seq<ResearchEvents.ResearchOutput>, Exception>)
    ensures r == GatherResearch(calls, existing, used, o)
  {
    var outs: seq<ResearchEvents.ResearchOutput> := [];
    for k := 0 to |calls|
      invariant GatherResearch(calls[..k], existing, used, o) == Success(outs)
    {
      GatherSnoc(calls, existing, used, o, k, outs);
      var out := ResearchOne(calls[k], existing, used, o);
      if out.Failure? {
        GatherAbsorbs(calls, existing, used, o, k + 1);
        return Failure(out.error);
      }
      outs := outs + [out.value];
    }
    assert calls[..|calls|] == calls;
    r := Success(outs);
  }

  /** The batch over one more call. */
  lemma GatherSnoc<E, P>(calls: seq<ToolCall<string>>, existing: Option<Record>, used: seq<string>,
                         o: SupervisorOracles<E, P>, k: nat, outs: seq<ResearchEvents.ResearchOutput>)
    requires k < |calls| && GatherResearch(calls[..k], existing, used, o) == Success(outs)
    ensures var out := ResearchOne(calls[k], existing, used, o);
            GatherResearch(calls[..k + 1], existing, used, o)
            == if out.Failure? then Failure(out.error) else Success(outs + [out.value])
  {
    assert calls[..k + 1][..k] == calls[..k];
  }

  /** The loop over the tool calls: a Finish call stops it, a think call is echoed, a research call is kept. */
  method ScanToolCalls(calls: seq<ToolCall<string>>) returns (scan: Scan)
    ensures scan == ScanCalls(calls)
  {
    var messages: seq<Message> := [];
    var research: seq<ToolCall<string>> := [];
    for i := 0 to |calls|
      invariant ScanCalls(calls[..i]) == Scanned(messages, research)
    {
      var call := calls[i];
      assert calls[..i + 1][..i] == calls[..i] && calls[..i + 1][i] == call;
      if call.name == FinishResearchToolName {
        ScanAbsorbs(calls, i + 1);
        return Finished;
      } else if call.name == ThinkToolName {
        if "reflection" !in call.args {
          ScanAbsorbs(calls, i + 1);
          return Aborted(KeyError("reflection"));
        }
        messages := messages + [ToolMessage(call.args["reflection"], call.id, ThinkToolName)];
      } else if call.name == ResearchEventsToolName {
        research := research + [call];
      }
    }
    assert calls[..|calls|] == calls;
    scan := Scanned(messages, research);
  }

  /** The merge loop over the research results, with one tool message per call. */
  method MergeLoop(existing: Option<Record>, used: seq<string>, outs: seq<ResearchEvents.ResearchOutput>,
                   calls: seq<ToolCall<string>>)
    returns (merged: (Option<Record>, seq<string>), messages: seq<Message>)
    requires |outs| == |calls|
    ensures merged == MergeResults(existing, used, outs)
    ensures messages == ResearchMessages(calls)
  {
    var data, domains := existing, used;
    messages := [];
    for k := 0 to |outs|
      invariant (data, domains) == MergeResults(existing, used, outs[..k])
      invariant messages == ResearchMessages(calls[..k])
    {
      assert outs[..k + 1][..k] == outs[..k] && outs[..k + 1][k] == outs[k];
      assert ResearchMessages(calls[..k + 1])
             == ResearchMessages(calls[..k]) + [ToolMessage(ResearchDoneMessage, calls[k].id, ResearchEventsToolName)];
      data := outs[k].existingData;
      domains := domains + outs[k].usedDomains;
      messages := messages + [ToolMessage(ResearchDoneMessage, calls[k].id, ResearchEventsToolName)];
    }
    assert outs[..|outs|] == outs && calls[..|calls|] == calls;
    merged := (data, domains);
  }

  /**
   * The node goes to `structure_output` with nothing written exactly when
   * the last reply has no tool calls, the cap is reached, or the first
   * stopping call of the reply is a `FinishResearchTool` call.
   */
  lemma StructureRoute<E, P>(s: GraphState, reg: ResearchTypeRegistry.Snapshot, o: SupervisorOracles<E, P>)
    requires ResearchTypeRegistry.Lookup(reg, ResearchTypeName(s)).Success?
    requires s.conversationHistory != [] && s.conversationHistory[|s.conversationHistory| - 1].AiMessage?
    ensures var calls := s.conversationHistory[|s.conversationHistory| - 1].toolCalls;
            ToolsOutcome(s, reg, o) == Success(Command(StructureOutputNode, NoUpdate))
            <==> (|| calls == []
                  || IterationCount(s) >= o.maxIterations
                  || exists i :: 0 <= i < |calls| && calls[i].name == FinishResearchToolName
                                 && forall j :: 0 <= j < i ==> !Stops(calls[j]))
  {
    var calls := s.conversationHistory[|s.conversationHistory| - 1].toolCalls;
    if calls != [] && IterationCount(s) < o.maxIterations {
      var k := 0;
      while k < |calls| && !Stops(calls[k])
        invariant 0 <= k <= |calls|
        invariant forall j :: 0 <= j < k ==> !Stops(calls[j])
      {
        k := k + 1;
      }
      if k == |calls| {
        ScanWithoutStop(calls);
        ScannedDispatch(s, reg, o, Echoes(CallsTo(calls, ThinkToolName)), CallsTo(calls, ResearchEventsToolName));
      } else {
        FirstStopDecides(calls, k);
        forall i | 0 <= i < |calls| && calls[i].name == FinishResearchToolName && (forall j :: 0 <= j < i ==> !Stops(calls[j]))
          ensures i == k
        {
          assert Stops(calls[i]);
        }
      }
    }
  }

  /**
   * A turn whose calls hold no stopping call and no research call: the think
   * echoes are appended in order, the data is seeded when absent, and the
   * domains and the summary are written back as they were.
   */
  lemma ThinkOnlyTurn<E, P>(s: GraphState, reg: ResearchTypeRegistry.Snapshot, o: SupervisorOracles<E, P>)
    requires ResearchTypeRegistry.Lookup(reg, ResearchTypeName(s)).Success?
    requires s.conversationHistory != [] && s.conversationHistory[|s.conversationHistory| - 1].AiMessage?
    requires var calls := s.conversationHistory[|s.conversationHistory| - 1].toolCalls;
             calls != [] && IterationCount(s) < o.maxIterations
             && (forall i :: 0 <= i < |calls| ==> !Stops(calls[i]))
             && CallsTo(calls, ResearchEventsToolName) == []
    ensures var calls := s.conversationHistory[|s.conversationHistory| - 1].toolCalls;
            var t := ResearchTypeRegistry.Lookup(reg, ResearchTypeName(s)).value;
            var r := ToolsOutcome(s, reg, o);
            r.Success? && r.value.goto == SupervisorNode
            && var next := Apply(s, r.value.update);
            && next.conversationHistory == s.conversationHistory + Echoes(CallsTo(calls, ThinkToolName))
            && next.existingData == (if s.existingData.None? then Some(InitialData(t)) else s.existingData)
            && UsedDomains(next) == UsedDomains(s) && DataSummary(next) == DataSummary(s)
            && IterationCount(next) == IterationCount(s)
  {
    var calls := s.conversationHistory[|s.conversationHistory| - 1].toolCalls;
    var thinks, research := Echoes(CallsTo(calls, ThinkToolName)), CallsTo(calls, ResearchEventsToolName);
    ScanWithoutStop(calls);
    ScannedDispatch(s, reg, o, thinks, research);
  }

  /** Once the loop has collected `thinks` and `research`, the rest of the turn is `Dispatched`. */
  lemma ScannedDispatch<E, P>(s: GraphState, reg: ResearchTypeRegistry.Snapshot, o: SupervisorOracles<E, P>,
                              thinks: seq<Message>, research: seq<ToolCall<string>>)
    requires ResearchTypeRegistry.Lookup(reg, ResearchTypeName(s)).Success?
    requires s.conversationHistory != [] && s.conversationHistory[|s.conversationHistory| - 1].AiMessage?
    requires var calls := s.conversationHistory[|s.conversationHistory| - 1].toolCalls;
             calls != [] && IterationCount(s) < o.maxIterations && ScanCalls(calls) == Scanned(thinks, research)
    ensures var t := ResearchTypeRegistry.Lookup(reg, ResearchTypeName(s)).value;
            var seeded := if s.existingData.None? then Some(InitialData(t)) else s.existingData;
            ToolsOutcome(s, reg, o) == Dispatched(t, s, seeded, thinks, research, o)
  {
    var t := ResearchTypeRegistry.Lookup(reg, ResearchTypeName(s)).value;
    var seeded := if s.existingData.None? then Some(InitialData(t)) else s.existingData;
    var last := s.conversationHistory[|s.conversationHistory| - 1];
    assert ToolsOutcome(s, reg, o) == AfterScan(t, s, seeded, ScanCalls(last.toolCalls), o);
    assert AfterScan(t, s, seeded, Scanned(thinks, research), o) == Dispatched(t, s, seeded, thinks, research, o);
  }

  /**
   * A turn with research calls and no stopping call that succeeds: every
   * research call was made on the same snapshot; the last result's data
   * wins; the domains are those used before or returned by some call, each
   * once; the think echoes then one message per research call are appended;
   * and the summary is the summarizing model's reply.
   */
  lemma ResearchTurn<E, P>(s: GraphState, reg: ResearchTypeRegistry.Snapshot, o: SupervisorOracles<E, P>)
    requires ResearchTypeRegistry.Lookup(reg, ResearchTypeName(s)).Success?
    requires s.conversationHistory != [] && s.conversationHistory[|s.conversationHistory| - 1].AiMessage?
    requires var calls := s.conversationHistory[|s.conversationHistory| - 1].toolCalls;
             calls != [] && IterationCount(s) < o.maxIterations
             && (forall i :: 0 <= i < |calls| ==> !Stops(calls[i]))
             && CallsTo(calls, ResearchEventsToolName) != []
    requires ToolsOutcome(s, reg, o).Success?
    ensures var calls := s.conversationHistory[|s.conversationHistory| - 1].toolCalls;
            var t := ResearchTypeRegistry.Lookup(reg, ResearchTypeName(s)).value;
            var seeded := if s.existingData.None? then Some(InitialData(t)) else s.existingData;
            var research := CallsTo(calls, ResearchEventsToolName);
            var outs := GatherResearch(research, seeded, UsedDomains(s), o);
            var next := Apply(s, ToolsOutcome(s, reg, o).value.update);
            && outs.Success?
            && (forall k :: 0 <= k < |research| ==> ResearchOne(research[k], seeded, UsedDomains(s), o) == Success(outs.value[k]))
            && next.existingData == outs.value[|outs.value| - 1].existingData
            && NoDuplicates(UsedDomains(next))
            && (forall d :: d in UsedDomains(next) <==>
                           d in UsedDomains(s) || exists k :: 0 <= k < |outs.value| && d in outs.value[k].usedDomains)
            && next.conversationHistory
               == s.conversationHistory + Echoes(CallsTo(calls, ThinkToolName)) + ResearchMessages(research)
            && IterationCount(next) == IterationCount(s)
            && FormatPrompt(t.summarizerPrompt, DataArgs(o.showData(next.existingData))).Success?
            && DataSummary(next) == o.summarize(FormatPrompt(t.summarizerPrompt, DataArgs(o.showData(next.existingData))).value)
  {
    var calls := s.conversationHistory[|s.conversationHistory| - 1].toolCalls;
    var t := ResearchTypeRegistry.Lookup(reg, ResearchTypeName(s)).value;
    var seeded := if s.existingData.None? then Some(InitialData(t)) else s.existingData;
    var thinks, research := Echoes(CallsTo(calls, ThinkToolName)), CallsTo(calls, ResearchEventsToolName);
    ToolsDispatch(s, reg, o);
    DispatchedResearch(t, s, seeded, thinks, research, o);
  }

  /**
   * With the research sub-graph as the `research` call: a research turn that
   * succeeds ran the sub-graph once per research call, each on the question
   * the call carried, which is not empty, and on the turn's snapshot; the new
   * data is what the last run returned, and the domains are those used
   * before or returned by some run.
   */
  lemma SubgraphResearchTurn<E, P>(s: GraphState, reg: ResearchTypeRegistry.Snapshot, o: SupervisorOracles<E, P>,
                                   ro: ResearchEvents.ResearchOracles)
    requires ResearchTypeRegistry.Lookup(reg, ResearchTypeName(s)).Success?
    requires s.conversationHistory != [] && s.conversationHistory[|s.conversationHistory| - 1].AiMessage?
    requires var calls := s.conversationHistory[|s.conversationHistory| - 1].toolCalls;
             calls != [] && IterationCount(s) < o.maxIterations
             && (forall i :: 0 <= i < |calls| ==> !Stops(calls[i]))
             && CallsTo(calls, ResearchEventsToolName) != []
    requires ToolsOutcome(s, reg, o).Success?
    requires ResearchEvents.UpdateShrinks(ro)
    requires forall q, d, u :: o.research(q, d, u) == ResearchEvents.ResearchEventsSpec(q, d, u, ro)
    ensures var calls := s.conversationHistory[|s.conversationHistory| - 1].toolCalls;
            var t := ResearchTypeRegistry.Lookup(reg, ResearchTypeName(s)).value;
            var seeded := if s.existingData.None? then Some(InitialData(t)) else s.existingData;
            var research := CallsTo(calls, ResearchEventsToolName);
            var next := Apply(s, ToolsOutcome(s, reg, o).value.update);
            && (forall k :: 0 <= k < |research| ==>
                  "research_question" in research[k].args && research[k].args["research_question"] != ""
                  && ResearchEvents.ResearchEventsSpec(research[k].args["research_question"], seeded, UsedDomains(s), ro).Success?)
            && next.existingData
               == ResearchEvents.ResearchEventsSpec(research[|research| - 1].args["research_question"], seeded, UsedDomains(s), ro)
                    .value.existingData
            && (forall d :: d in UsedDomains(next) <==>
                  d in UsedDomains(s)
                  || exists k :: 0 <= k < |research| &&
                       d in ResearchEvents.ResearchEventsSpec(research[k].args["research_question"], seeded, UsedDomains(s), ro)
                              .value.usedDomains)
  {
    var calls := s.conversationHistory[|s.conversationHistory| - 1].toolCalls;
    var t := ResearchTypeRegistry.Lookup(reg, ResearchTypeName(s)).value;
    var seeded := if s.existingData.None? then Some(InitialData(t)) else s.existingData;
    var run := (q, d, u) => ResearchEvents.ResearchEventsSpec(q, d, u, ro);
    ToolsDispatch(s, reg, o);
    DispatchedThrough(t, s, seeded, Echoes(CallsTo(calls, ThinkToolName)), CallsTo(calls, ResearchEventsToolName), o, run);
  }

  /** A research batch that succeeds, told through any function the `research` call agrees with. */
  lemma DispatchedThrough<E, P>(t: ResearchType, s: GraphState, existing: Option<Record>, thinks: seq<Message>,
                                research: seq<ToolCall<string>>, o: SupervisorOracles<E, P>,
                                run: (string, Option<Record>, seq<string>) -> Result<ResearchEvents.ResearchOutput, Exception>)
    requires research != [] && Dispatched(t, s, existing, thinks, research, o).Success?
    requires forall q, d, u :: o.research(q, d, u) == run(q, d, u)
    ensures var next := Apply(s, Dispatched(t, s, existing, thinks, research, o).value.update);
            && (forall k :: 0 <= k < |research| ==>
                  "research_question" in research[k].args
                  && run(research[k].args["research_question"], existing, UsedDomains(s)).Success?)
            && next.existingData == run(research[|research| - 1].args["research_question"], existing, UsedDomains(s)).value.existingData
            && (forall d :: d in UsedDomains(next) <==>
                  d in UsedDomains(s)
                  || exists k :: 0 <= k < |research| &&
                       d in run(research[k].args["research_question"], existing, UsedDomains(s)).value.usedDomains)
  {
    DispatchedResearch(t, s, existing, thinks, research, o);
    var outs := GatherResearch(research, existing, UsedDomains(s), o).value;
    forall k | 0 <= k < |research|
      ensures "research_question" in research[k].args
              && run(research[k].args["research_question"], existing, UsedDomains(s)) == Success(outs[k])
    {
      assert ResearchOne(research[k], existing, UsedDomains(s), o) == Success(outs[k]);
    }
    var next := Apply(s, Dispatched(t, s, existing, thinks, research, o).value.update);
    RunsOutcome(research, existing, UsedDomains(s), run, outs, next.existingData, UsedDomains(next));
  }

  /** The outcome of a batch restated over the runs, one per research call. */
  lemma RunsOutcome(research: seq<ToolCall<string>>, seeded: Option<Record>, used: seq<string>,
                    run: (string, Option<Record>, seq<string>) -> Result<ResearchEvents.ResearchOutput, Exception>,
                    outs: seq<ResearchEvents.ResearchOutput>, nextData: Option<Record>, nextDomains: seq<string>)
    requires |outs| == |research| > 0
    requires forall k :: 0 <= k < |research| ==>
               "research_question" in research[k].args && run(research[k].args["research_question"], seeded, used) == Success(outs[k])
    requires nextData == outs[|outs| - 1].existingData
    requires forall d :: d in nextDomains <==> d in used || exists k :: 0 <= k < |outs| && d in outs[k].usedDomains
    ensures nextData == run(research[|research| - 1].args["research_question"], seeded, used).value.existingData
    ensures forall d :: d in nextDomains <==>
              d in used || exists k :: 0 <= k < |research| &&
                             d in run(research[k].args["research_question"], seeded, used).value.usedDomains
  {
    forall d | d in nextDomains
      ensures d in used || exists k :: 0 <= k < |research| &&
                                         d in run(research[k].args["research_question"], seeded, used).value.usedDomains
    {
      if d !in used {
        var k :| 0 <= k < |outs| && d in outs[k].usedDomains;
        assert run(research[k].args["research_question"], seeded, used).value == outs[k];
      }
    }
  }

  /** With no stopping call the turn is decided by the calls it collected. */
  lemma ToolsDispatch<E, P>(s: GraphState, reg: ResearchTypeRegistry.Snapshot, o: SupervisorOracles<E, P>)
    requires ResearchTypeRegistry.Lookup(reg, ResearchTypeName(s)).Success?
    requires s.conversationHistory != [] && s.conversationHistory[|s.conversationHistory| - 1].AiMessage?
    requires var calls := s.conversationHistory[|s.conversationHistory| - 1].toolCalls;
             calls != [] && IterationCount(s) < o.maxIterations
             && (forall i :: 0 <= i < |calls| ==> !Stops(calls[i]))
    ensures var calls := s.conversationHistory[|s.conversationHistory| - 1].toolCalls;
            var t := ResearchTypeRegistry.Lookup(reg, ResearchTypeName(s)).value;
            var seeded := if s.existingData.None? then Some(InitialData(t)) else s.existingData;
            ToolsOutcome(s, reg, o)
            == Dispatched(t, s, seeded, Echoes(CallsTo(calls, ThinkToolName)), CallsTo(calls, ResearchEventsToolName), o)
  {
    var calls := s.conversationHistory[|s.conversationHistory| - 1].toolCalls;
    var thinks, research := Echoes(CallsTo(calls, ThinkToolName)), CallsTo(calls, ResearchEventsToolName);
    ScanWithoutStop(calls);
    ScannedDispatch(s, reg, o, thinks, research);
  }

  /** A research batch that succeeds: last writer wins, domains are merged without repeats, messages are appended. */
  lemma DispatchedResearch<E, P>(t: ResearchType, s: GraphState, existing: Option<Record>, thinks: seq<Message>,
                                 research: seq<ToolCall<string>>, o: SupervisorOracles<E, P>)
    requires research != [] && Dispatched(t, s, existing, thinks, research, o).Success?
    ensures var outs := GatherResearch(research, existing, UsedDomains(s), o);
            var next := Apply(s, Dispatched(t, s, existing, thinks, research, o).value.update);
            && outs.Success?
            && (forall k :: 0 <= k < |research| ==> ResearchOne(research[k], existing, UsedDomains(s), o) == Success(outs.value[k]))
            && next.existingData == outs.value[|outs.value| - 1].existingData
            && NoDuplicates(UsedDomains(next))
            && (forall d :: d in UsedDomains(next) <==>
                           d in UsedDomains(s) || exists k :: 0 <= k < |outs.value| && d in outs.value[k].usedDomains)
            && next.conversationHistory == s.conversationHistory + thinks + ResearchMessages(research)
            && IterationCount(next) == IterationCount(s)
            && FormatPrompt(t.summarizerPrompt, DataArgs(o.showData(next.existingData))).Success?
            && DataSummary(next) == o.summarize(FormatPrompt(t.summarizerPrompt, DataArgs(o.showData(next.existingData))).value)
  {
    var outs := GatherResearch(research, existing, UsedDomains(s), o);
    DispatchedUpdate(t, s, existing, thinks, research, o);
    BatchApplied(s, Dispatched(t, s, existing, thinks, research, o).value.update, existing, thinks, research, outs.value);
  }

  /** Applying a batch's update: the facts of `DispatchedResearch` about the new state. */
  lemma BatchApplied(s: GraphState, u: Update, existing: Option<Record>, thinks: seq<Message>,
                     research: seq<ToolCall<string>>, outs: seq<ResearchEvents.ResearchOutput>)
    requires outs != []
    requires u.existingData == Some(MergeResults(existing, UsedDomains(s), outs).0)
    requires u.history == thinks + ResearchMessages(research)
    requires u.usedDomains == Some(Distinct(MergeResults(existing, UsedDomains(s), outs).1))
    requires u.iterationCount == None
    ensures var next := Apply(s, u);
            && next.existingData == outs[|outs| - 1].existingData
            && NoDuplicates(UsedDomains(next))
            && (forall d :: d in UsedDomains(next) <==>
                           d in UsedDomains(s) || exists k :: 0 <= k < |outs| && d in outs[k].usedDomains)
            && next.conversationHistory == s.conversationHistory + thinks + ResearchMessages(research)
            && IterationCount(next) == IterationCount(s)
  {
    MergedDomains(existing, UsedDomains(s), outs);
  }

  /** The update a successful research batch writes: the merged data, the messages and the deduplicated domains. */
  lemma DispatchedUpdate<E, P>(t: ResearchType, s: GraphState, existing: Option<Record>, thinks: seq<Message>,
                               research: seq<ToolCall<string>>, o: SupervisorOracles<E, P>)
    requires research != [] && Dispatched(t, s, existing, thinks, research, o).Success?
    ensures var outs := GatherResearch(research, existing, UsedDomains(s), o);
            var u := Dispatched(t, s, existing, thinks, research, o).value.update;
            && outs.Success?
            && u.existingData == Some(MergeResults(existing, UsedDomains(s), outs.value).0)
            && u.history == thinks + ResearchMessages(research)
            && u.usedDomains == Some(Distinct(MergeResults(existing, UsedDomains(s), outs.value).1))
            && u.iterationCount == None
            && var prompt := FormatPrompt(t.summarizerPrompt, DataArgs(o.showData(MergeResults(existing, UsedDomains(s), outs.value).0)));
               prompt.Success? && u.dataSummary == Some(o.summarize(prompt.value))
  {
    var outs := GatherResearch(research, existing, UsedDomains(s), o);
    var merged := MergeResults(existing, UsedDomains(s), outs.value);
    var prompt := FormatPrompt(t.summarizerPrompt, DataArgs(o.showData(merged.0)));
    var u := Update(Some(merged.0), thinks + ResearchMessages(research), Some(Distinct(merged.1)),
                    Some(o.summarize(prompt.value)), None);
    assert Dispatched(t, s, existing, thinks, research, o) == Success(Command(SupervisorNode, u));
  }

  /** The domains a batch leaves: no repeats, and each one was used before or returned by some result. */
  lemma MergedDomains(existing: Option<Record>, used: seq<string>, outs: seq<ResearchEvents.ResearchOutput>)
    requires outs != []
    ensures MergeResults(existing, used, outs).0 == outs[|outs| - 1].existingData
    ensures var domains := Distinct(MergeResults(existing, used, outs).1);
            && NoDuplicates(domains)
            && forall d :: d in domains <==> d in used || exists k :: 0 <= k < |outs| && d in outs[k].usedDomains
  {
    MergeResultsShape(existing, used, outs);
  }

  // ---------------------------------------------------------------------
  // structure_output
  // ---------------------------------------------------------------------

  /** `structure_output`: no data gives `None`; otherwise the type structures the data. */
  function StructureOutputStep<E, P>(s: GraphState, reg: ResearchTypeRegistry.Snapshot, o: SupervisorOracles<E, P>)
    : (r: Result<StructuredOutput<E, P>, Exception>)
    ensures ResearchTypeRegistry.Lookup(reg, ResearchTypeName(s)).Failure? ==>
              r == Failure(ResearchTypeRegistry.Lookup(reg, ResearchTypeName(s)).error)
    ensures ResearchTypeRegistry.Lookup(reg, ResearchTypeName(s)).Success? && s.existingData.None? ==> r == Success(NoOutput)
    ensures ResearchTypeRegistry.Lookup(reg, ResearchTypeName(s)).Success? && s.existingData.Some? ==>
              r == StructureOutput(ResearchTypeRegistry.Lookup(reg, ResearchTypeName(s)).value, s.existingData, o.structuring)
  {
    match ResearchTypeRegistry.Lookup(reg, ResearchTypeName(s))
    case Failure(e) => Failure(e)
    case Success(t) =>
      if s.existingData.None? then Success(NoOutput)
      else StructureOutput(t, s.existingData, o.structuring)
  }

  /**
   * Without data the graph answers `None` before the type is asked, so a
   * per-category type, which would itself answer an empty event list, never
   * gets to.
   */
  lemma NoDataNoOutput<E, P>(s: GraphState, reg: ResearchTypeRegistry.Snapshot, o: SupervisorOracles<E, P>)
    requires ResearchTypeRegistry.Lookup(reg, ResearchTypeName(s)).Success?
    requires ResearchTypeRegistry.Lookup(reg, ResearchTypeName(s)).value.structuring.PerCategory?
    requires s.existingData.None?
    ensures StructureOutputStep(s, reg, o) == Success(NoOutput)
    ensures StructureOutput(ResearchTypeRegistry.Lookup(reg, ResearchTypeName(s)).value, s.existingData, o.structuring)
            == Success(Events([]))
  {
  }

  // ---------------------------------------------------------------------
  // The graph from entry to end
  // ---------------------------------------------------------------------

  /** The turns the iteration cap still allows, counted down by both nodes of a turn. */
  function Fuel(node: Node, count: int, maxIterations: int): nat {
    var left := if count < maxIterations then maxIterations - count else 0;
    match node
    case SupervisorNode => 2 * left + 2
    case SupervisorToolsNode => if count >= maxIterations then 1 else 2 * left + 3
    case StructureOutputNode => 0
  }

  /**
   * Runs the graph from `supervisor` to the end of `structure_output`.  Also
   * returns the number of supervisor turns: each turn adds one to the
   * iteration count, so a run starting at count `c` takes at most
   * `MAX_TOOL_CALL_ITERATIONS - c` turns, and one when the cap is already
   * reached.
   */
  method RunSupervisor<E, P>(s0: GraphState, reg: ResearchTypeRegistry.Snapshot, o: SupervisorOracles<E, P>)
    returns (r: Result<StructuredOutput<E, P>, Exception>, turns: nat)
    ensures turns <= if IterationCount(s0) < o.maxIterations then o.maxIterations - IterationCount(s0) else 1
    ensures r.Success? ==> turns >= 1
  {
    var s := s0;
    var node := SupervisorNode;
    turns := 0;
    while node != StructureOutputNode
      invariant IterationCount(s) == IterationCount(s0) + turns
      invariant node == SupervisorNode ==> turns == 0 || IterationCount(s) < o.maxIterations
      invariant node != SupervisorNode ==> turns >= 1 && (turns == 1 || IterationCount(s) - 1 < o.maxIterations)
      decreases Fuel(node, IterationCount(s), o.maxIterations)
    {
      if node == SupervisorNode {
        var step := SupervisorStep(s, reg, o);
        if step.Failure? {
          return Failure(step.error), turns;
        }
        s := Apply(s, step.value.update);
        node := step.value.goto;
        turns := turns + 1;
      } else {
        var step := SupervisorTools(s, reg, o);
        if step.Failure? {
          return Failure(step.error), turns;
        }
        s := Apply(s, step.value.update);
        node := step.value.goto;
      }
    }
    r := StructureOutputStep(s, reg, o);
  }
}
