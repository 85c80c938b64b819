/**
 * The research-type interface: what the supervisor graph asks of a research
 * domain (its name, its three prompts, the record it accumulates, the schema
 * of its final output and how that output is structured), with the
 * interface's defaults.  A research type is a value here: every member of
 * the interface returns a constant or is a pure function of its arguments.
 */
module ResearchTypeBase {
  import opened Wrappers
  import opened Errors
  import opened PyStr
  import opened State
  import opened Templates

  /** A block of the combined text: the data field and the header printed above it. */
  datatype Section = Section(field: string, header: string)

  /** How `structure_output` turns the accumulated record into the final output. */
  datatype Structuring =
      /** One structuring call per category, in this order; the events of the replies are concatenated. */
    | PerCategory(order: seq<string>)
      /** One structuring call over the text that combines these sections. */
    | Combined(sections: seq<Section>)

  /**
   * One research domain.  `subjectOverride` and `toolsOverride` are the
   * overrides of `get_subject_display_name` and `get_additional_tools`
   * (tools are named by their class); `None` keeps the interface's default.
   */
  datatype ResearchType = ResearchType(
    name: string,
    displayName: string,
    subjectOverride: Option<string>,
    toolsOverride: Option<seq<string>>,
    supervisorPrompt: Template,
    summarizerPrompt: Template,
    structurePrompt: Template,
    outputSchema: string,
    dataSchema: Schema,
    structuring: Structuring)

  const DefaultSubjectDisplayName: string := "subject"

  /** `get_subject_display_name`: "subject" unless the type overrides it. */
  function SubjectDisplayName(t: ResearchType): (r: string)
    ensures t.subjectOverride.None? ==> r == DefaultSubjectDisplayName
    ensures t.subjectOverride.Some? ==> r == t.subjectOverride.value
  {
    t.subjectOverride.GetOr(DefaultSubjectDisplayName)
  }

  /** `get_additional_tools`: no extra tools unless the type overrides it. */
  function AdditionalTools(t: ResearchType): (r: seq<string>)
    ensures t.toolsOverride.None? ==> r == []
    ensures t.toolsOverride.Some? ==> r == t.toolsOverride.value
  {
    t.toolsOverride.GetOr([])
  }

  /** `get_initial_data_structure`: the data record with every field empty. */
  function InitialData(t: ResearchType): (r: Record)
    ensures Conforms(r, t.dataSchema)
    ensures forall f :: f in t.dataSchema.fieldNames ==> r.fields[f] == ""
  {
    Instantiate(t.dataSchema, map[])
  }

  // ---------------------------------------------------------------------
  // The documented requirements on an implementation
  // ---------------------------------------------------------------------

  /** A non-empty identifier of lower-case letters and underscores. */
  predicate IsLowercaseIdentifier(s: string) {
    |s| > 0 && forall i :: 0 <= i < |s| ==> ('a' <= s[i] <= 'z' || s[i] == '_')
  }

  /** Every placeholder of the template is one of `names`. */
  predicate OnlyHoles(t: Template, names: set<string>) {
    forall i :: 0 <= i < |t| && t[i].Hole? ==> t[i].name in names
  }

  const SupervisorHoles: set<string> := {"research_subject", "data_summary", "last_message"}
  const DataHoles: set<string> := {"existing_data"}

  /**
   * The interface's documented contract: a lower-case name, the supervisor
   * prompt has the subject, summary and last-message placeholders, and the
   * summarizer and structure prompts have the data placeholder, each with no
   * placeholder besides these.
   */
  predicate WellFormed(t: ResearchType) {
    && IsLowercaseIdentifier(t.name)
    && HasHole(t.supervisorPrompt, "research_subject")
    && HasHole(t.supervisorPrompt, "data_summary")
    && HasHole(t.supervisorPrompt, "last_message")
    && OnlyHoles(t.supervisorPrompt, SupervisorHoles)
    && HasHole(t.summarizerPrompt, "existing_data")
    && OnlyHoles(t.summarizerPrompt, DataHoles)
    && HasHole(t.structurePrompt, "existing_data")
    && OnlyHoles(t.structurePrompt, DataHoles)
  }

  /** The keyword arguments the supervisor formats its prompt with. */
  function SupervisorArgs(subject: string, summary: string, lastMessage: string): map<string, string> {
    map["research_subject" := subject, "data_summary" := summary, "last_message" := lastMessage]
  }

  /** The keyword arguments of the summarizer and structure prompts. */
  function DataArgs(data: string): map<string, string> {
    map["existing_data" := data]
  }

  /** `prompt.format(**args)`, a missing argument raising `KeyError`. */
  function FormatPrompt(t: Template, args: map<string, string>): (r: Result<string, Exception>)
    ensures r.Success? <==> Covers(t, args)
    ensures r.Success? ==> r == Success(Format(t, args).value)
    ensures r.Failure? ==> r.error.KeyError? && r.error.key !in args
  {
    match Format(t, args)
    case Success(s) => Success(s)
    case Failure(k) => Failure(KeyError(k))
  }

  /** A template whose placeholders are all among the arguments' keys formats. */
  lemma OnlyHolesCovers(t: Template, names: set<string>, args: map<string, string>)
    requires OnlyHoles(t, names) && names <= args.Keys
    ensures Covers(t, args)
  {
  }

  /**
   * A well-formed type's supervisor prompt always formats, and the system
   * message shows the subject, the summary and the last message.
   */
  lemma SupervisorPromptFormats(t: ResearchType, subject: string, summary: string, lastMessage: string)
    requires WellFormed(t)
    ensures var r := FormatPrompt(t.supervisorPrompt, SupervisorArgs(subject, summary, lastMessage));
            r.Success? && Contains(r.value, subject) && Contains(r.value, summary) && Contains(r.value, lastMessage)
  {
    var args := SupervisorArgs(subject, summary, lastMessage);
    OnlyHolesCovers(t.supervisorPrompt, SupervisorHoles, args);
    FormatContainsArgument(t.supervisorPrompt, args, "research_subject");
    FormatContainsArgument(t.supervisorPrompt, args, "data_summary");
    FormatContainsArgument(t.supervisorPrompt, args, "last_message");
  }

  /** A well-formed type's summarizer and structure prompts always format and show the data. */
  lemma DataPromptsFormat(t: ResearchType, data: string)
    requires WellFormed(t)
    ensures var r := FormatPrompt(t.summarizerPrompt, DataArgs(data)); r.Success? && Contains(r.value, data)
    ensures var r := FormatPrompt(t.structurePrompt, DataArgs(data)); r.Success? && Contains(r.value, data)
  {
    OnlyHolesCovers(t.summarizerPrompt, DataHoles, DataArgs(data));
    OnlyHolesCovers(t.structurePrompt, DataHoles, DataArgs(data));
    FormatContainsArgument(t.summarizerPrompt, DataArgs(data), "existing_data");
    FormatContainsArgument(t.structurePrompt, DataArgs(data), "existing_data");
  }

  // ---------------------------------------------------------------------
  // The combined text of the single-call types
  // ---------------------------------------------------------------------

  /** One section of the combined f-string: a blank line, `Header:`, the value. */
  function Block(header: string, value: string): string {
    "\n" + header + ":\n" + value + "\n"
  }

  /** Every section's field is an attribute of the record. */
  predicate HasSections(sections: seq<Section>, r: Record) {
    forall i :: 0 <= i < |sections| ==> sections[i].field in r.fields
  }

  /**
   * The f-string that lists the record's sections, each under its header,
   * in section order.  Reading a field the record's class lacks raises
   * `AttributeError`: the first such field in section order.
   */
  function CombineSections(sections: seq<Section>, r: Record): (t: Result<string, Exception>)
    ensures t.Success? <==> HasSections(sections, r)
    ensures t.Failure? ==> exists i :: 0 <= i < |sections| && sections[i].field !in r.fields
                                       && t.error == AttributeError(r.model, sections[i].field)
                                       && HasSections(sections[..i], r)
    decreases |sections|
  {
    if sections == [] then Success("")
    else if sections[0].field !in r.fields then
      assert HasSections(sections[..0], r);
      Failure(AttributeError(r.model, sections[0].field))
    else
      match CombineSections(sections[1..], r)
      case Success(rest) =>
        assert HasSections(sections, r) by {
          forall i | 0 <= i < |sections| ensures sections[i].field in r.fields {
            if i > 0 { assert sections[i] == sections[1..][i - 1]; }
          }
        }
        Success(Block(sections[0].header, r.fields[sections[0].field]) + rest)
      case Failure(e) =>
        var j :| 0 <= j < |sections[1..]| && sections[1..][j].field !in r.fields
                 && e == AttributeError(r.model, sections[1..][j].field) && HasSections(sections[1..][..j], r);
        assert sections[j + 1] == sections[1..][j];
        assert HasSections(sections[..j + 1], r) by {
          forall i | 0 <= i < j + 1 ensures sections[i].field in r.fields {
            if i > 0 { assert sections[i] == sections[1..][..j][i - 1]; }
          }
        }
        Failure(e)
  }

  /** Sections that list a schema's fields are all present in a record of that schema. */
  lemma SchemaHasSections(sections: seq<Section>, schema: Schema, r: Record)
    requires |sections| == |schema.fieldNames|
    requires forall i :: 0 <= i < |sections| ==> sections[i].field == schema.fieldNames[i]
    requires Conforms(r, schema)
    ensures HasSections(sections, r)
  {
    forall i | 0 <= i < |sections| ensures sections[i].field in r.fields {
      assert schema.fieldNames[i] in set f | f in schema.fieldNames;
    }
  }

  /** The combined text of a leading section followed by more. */
  lemma CombineSectionsCons(s: Section, rest: seq<Section>, r: Record)
    requires s.field in r.fields && HasSections(rest, r)
    ensures CombineSections([s] + rest, r) == Success(Block(s.header, r.fields[s.field]) + CombineSections(rest, r).value)
  {
    assert ([s] + rest)[1..] == rest;
  }

  /** The text of a section of a record that has its field. */
  function SectionText(s: Section, r: Record): string
    requires s.field in r.fields
  {
    Block(s.header, r.fields[s.field])
  }

  /** The combined text starts with the text of the first section. */
  lemma CombineSectionsHead(s: seq<Section>, r: Record)
    requires |s| > 0 && HasSections(s, r)
    ensures HasSections(s[1..], r)
    ensures CombineSections(s, r) == Success(SectionText(s[0], r) + CombineSections(s[1..], r).value)
  {
    assert forall i :: 0 <= i < |s[1..]| ==> s[1..][i] == s[i + 1];
  }

  /** The combined text of five sections, written out. */
  lemma CombineFive(s: seq<Section>, r: Record)
    requires |s| == 5 && HasSections(s, r)
    ensures CombineSections(s, r) == Success(SectionText(s[0], r) + SectionText(s[1], r) + SectionText(s[2], r)
                                             + SectionText(s[3], r) + SectionText(s[4], r))
  {
    var t := s[1..];
    CombineSectionsHead(s, r);
    CombineSectionsHead(t, r);
    CombineSectionsHead(t[1..], r);
    CombineSectionsHead(t[1..][1..], r);
    CombineSectionsHead(t[1..][1..][1..], r);
    assert t[1..][1..][1..][1..] == [];
    assert t[0] == s[1] && t[1..][0] == s[2] && t[1..][1..][0] == s[3] && t[1..][1..][1..][0] == s[4];
    assert CombineSections(t[1..][1..][1..][1..], r).value == "";
    var x0, x1, x2, x3, x4 := SectionText(s[0], r), SectionText(s[1], r), SectionText(s[2], r),
                              SectionText(s[3], r), SectionText(s[4], r);
    assert CombineSections(s, r).value == x0 + (x1 + (x2 + (x3 + (x4 + ""))));
    assert x4 + "" == x4;
    assert x0 + (x1 + (x2 + (x3 + x4))) == x0 + x1 + x2 + x3 + x4;
  }

  /** The combined text of six sections, written out. */
  lemma CombineSix(s: seq<Section>, r: Record)
    requires |s| == 6 && HasSections(s, r)
    ensures CombineSections(s, r) == Success(SectionText(s[0], r) + SectionText(s[1], r) + SectionText(s[2], r)
                                             + SectionText(s[3], r) + SectionText(s[4], r) + SectionText(s[5], r))
  {
    CombineSectionsHead(s, r);
    CombineFive(s[1..], r);
    assert s[1..][0] == s[1] && s[1..][1] == s[2] && s[1..][2] == s[3] && s[1..][3] == s[4] && s[1..][4] == s[5];
    var x0, x1, x2, x3, x4, x5 := SectionText(s[0], r), SectionText(s[1], r), SectionText(s[2], r),
                                  SectionText(s[3], r), SectionText(s[4], r), SectionText(s[5], r);
    assert x0 + (x1 + x2 + x3 + x4 + x5) == x0 + x1 + x2 + x3 + x4 + x5;
  }

  /** The combined text of consecutive runs of sections is their concatenation. */
  lemma {:induction false} CombineSectionsAppend(a: seq<Section>, b: seq<Section>, r: Record)
    requires HasSections(a, r) && HasSections(b, r)
    ensures HasSections(a + b, r)
    ensures CombineSections(a + b, r).value == CombineSections(a, r).value + CombineSections(b, r).value
    decreases |a|
  {
    assert HasSections(a + b, r) by {
      forall i | 0 <= i < |a + b| ensures (a + b)[i].field in r.fields {
        if i >= |a| { assert (a + b)[i] == b[i - |a|]; }
      }
    }
    if a == [] {
      assert a + b == b;
    } else {
      assert (a + b)[1..] == a[1..] + b;
      assert HasSections(a[1..], r) by {
        forall i | 0 <= i < |a[1..]| ensures a[1..][i].field in r.fields {
          assert a[1..][i] == a[i + 1];
        }
      }
      CombineSectionsAppend(a[1..], b, r);
    }
  }

  /**
   * The sections appear in order: the text of section `i` starts right
   * after the text of the sections before it.
   */
  lemma SectionAt(sections: seq<Section>, r: Record, i: int)
    requires HasSections(sections, r) && 0 <= i < |sections|
    ensures var text := CombineSections(sections, r).value;
            var at := |CombineSections(sections[..i], r).value|;
            var block := Block(sections[i].header, r.fields[sections[i].field]);
            at + |block| <= |text| && text[at..at + |block|] == block
  {
    var pre, post := sections[..i], sections[i..];
    assert sections == pre + post;
    assert HasSections(pre, r) by {
      forall k | 0 <= k < |pre| ensures pre[k].field in r.fields { assert pre[k] == sections[k]; }
    }
    assert HasSections(post, r) by {
      forall k | 0 <= k < |post| ensures post[k].field in r.fields { assert post[k] == sections[i + k]; }
    }
    CombineSectionsAppend(pre, post, r);
    assert post[0] == sections[i];
    assert HasSections(post[1..], r) by {
      forall k | 0 <= k < |post[1..]| ensures post[1..][k].field in r.fields { assert post[1..][k] == post[k + 1]; }
    }
  }

  // ---------------------------------------------------------------------
  // structure_output
  // ---------------------------------------------------------------------

  /**
   * What `structure_output` puts under `structured_output`: `None`, a list of
   * events (`E`), or one structured reply of the output schema (`P`).
   */
  datatype StructuredOutput<E, P> = NoOutput | Events(events: seq<E>) | Report(report: P)

  /**
   * The structured-output model calls: the `Chronology` call, of which the
   * caller keeps `events`, and a call with a named output schema.
   */
  datatype StructuringOracles<E, P> = StructuringOracles(
    chronology: string -> Result<seq<E>, Exception>,
    report: (string, string) -> Result<P, Exception>)

  /**
   * The per-category prompts: the structure prompt formatted with each
   * category's text, in the given order.  All prompts are built before any
   * call, so a missing attribute or a bad template fails first.
   */
  function CategoryPrompts(prompt: Template, order: seq<string>, data: Record): (r: Result<seq<string>, Exception>)
    ensures r.Success? <==> ((forall i :: 0 <= i < |order| ==> order[i] in data.fields)
                             && (order != [] ==> Covers(prompt, DataArgs(""))))
    ensures r.Success? ==> |r.value| == |order|
                           && forall i :: 0 <= i < |order| ==>
                                r.value[i] == Format(prompt, DataArgs(data.fields[order[i]])).value
    decreases |order|
  {
    if order == [] then Success([])
    else
      match Attr(data, order[0])
      case Failure(e) => Failure(e)
      case Success(text) =>
        assert Covers(prompt, DataArgs(text)) <==> Covers(prompt, DataArgs(""));
        match FormatPrompt(prompt, DataArgs(text))
        case Failure(e) => Failure(e)
        case Success(p) =>
          match CategoryPrompts(prompt, order[1..], data)
          case Failure(e) =>
            var j :| 0 <= j < |order[1..]| && order[1..][j] !in data.fields;
            assert order[1..][j] == order[j + 1];
            Failure(e)
          case Success(ps) => Success([p] + ps)
  }

  /** The lists of `ss`, concatenated in order. */
  function Flatten<E>(ss: seq<seq<E>>): seq<E>
    decreases |ss|
  {
    if ss == [] then [] else ss[0] + Flatten(ss[1..])
  }

  /** The events of each Chronology reply, in prompt order (a reply that raised has none). */
  function ReplyEvents<E>(prompts: seq<string>, chronology: string -> Result<seq<E>, Exception>): (r: seq<seq<E>>)
    ensures |r| == |prompts|
    ensures forall i :: 0 <= i < |prompts| && chronology(prompts[i]).Success? ==> r[i] == chronology(prompts[i]).value
  {
    seq(|prompts|, i requires 0 <= i < |prompts| =>
      match chronology(prompts[i])
      case Success(events) => events
      case Failure(_) => [])
  }

  /**
   * The Chronology calls in order: the first that raises fails the whole
   * call with its error, otherwise the events of the replies concatenate.
   */
  function ChronologyCalls<E>(prompts: seq<string>, chronology: string -> Result<seq<E>, Exception>): (r: Result<seq<E>, Exception>)
    ensures r.Failure? <==> exists i :: 0 <= i < |prompts| && chronology(prompts[i]).Failure?
    ensures r.Failure? ==> exists i :: 0 <= i < |prompts| && chronology(prompts[i]) == Failure(r.error)
                                       && forall j :: 0 <= j < i ==> chronology(prompts[j]).Success?
    ensures r.Success? ==> r.value == Flatten(ReplyEvents(prompts, chronology))
    decreases |prompts|
  {
    if prompts == [] then Success([])
    else
      match chronology(prompts[0])
      case Failure(e) => Failure(e)
      case Success(head) =>
        var rest := prompts[1..];
        assert forall i :: 0 <= i < |rest| ==> rest[i] == prompts[i + 1];
        match ChronologyCalls(rest, chronology)
        case Failure(e) =>
          var i :| 0 <= i < |rest| && chronology(rest[i]) == Failure(e)
                   && forall j :: 0 <= j < i ==> chronology(rest[j]).Success?;
          assert chronology(prompts[i + 1]) == Failure(e);
          assert forall j :: 0 <= j < i + 1 ==> chronology(prompts[j]).Success? by {
            forall j | 0 <= j < i + 1 ensures chronology(prompts[j]).Success? {
              if j > 0 { assert prompts[j] == rest[j - 1]; }
            }
          }
          Failure(e)
        case Success(tail) =>
          assert forall i :: 0 <= i < |prompts| ==> chronology(prompts[i]).Success? by {
            forall i | 0 <= i < |prompts| ensures chronology(prompts[i]).Success? {
              if i > 0 { assert prompts[i] == rest[i - 1]; }
            }
          }
          assert ReplyEvents(prompts, chronology)[1..] == ReplyEvents(rest, chronology);
          Success(head + tail)
  }

  /** Four Chronology calls, written out. */
  lemma ChronologyCallsFour<E>(ps: seq<string>, chronology: string -> Result<seq<E>, Exception>)
    requires |ps| == 4
    ensures var r := ChronologyCalls(ps, chronology);
            var a, b, c, d := chronology(ps[0]), chronology(ps[1]), chronology(ps[2]), chronology(ps[3]);
            (r.Success? <==> a.Success? && b.Success? && c.Success? && d.Success?)
            && (r.Success? ==> r.value == a.value + b.value + c.value + d.value)
            && (a.Failure? ==> r == Failure(a.error))
            && (a.Success? && b.Failure? ==> r == Failure(b.error))
            && (a.Success? && b.Success? && c.Failure? ==> r == Failure(c.error))
            && (a.Success? && b.Success? && c.Success? && d.Failure? ==> r == Failure(d.error))
  {
    var r := ChronologyCalls(ps, chronology);
    if r.Failure? {
      var i :| 0 <= i < |ps| && chronology(ps[i]) == Failure(r.error)
               && forall j :: 0 <= j < i ==> chronology(ps[j]).Success?;
      assert chronology(ps[0]).Failure? ==> i == 0;
      assert chronology(ps[0]).Success? && chronology(ps[1]).Failure? ==> i == 1;
      assert chronology(ps[0]).Success? && chronology(ps[1]).Success? && chronology(ps[2]).Failure? ==> i == 2;
    }
    var t := ps[1..];
    assert t[0] == ps[1] && t[1..][0] == ps[2] && t[1..][1..][0] == ps[3];
    assert t[1..][1..][1..] == [];
    if r.Success? {
      var a, b, c, d := chronology(ps[0]).value, chronology(ps[1]).value, chronology(ps[2]).value, chronology(ps[3]).value;
      assert ChronologyCalls(t[1..][1..][1..], chronology) == Success([]);
      assert ChronologyCalls(t[1..][1..], chronology) == Success(d + []);
      assert ChronologyCalls(t[1..], chronology) == Success(c + (d + []));
      assert ChronologyCalls(t, chronology) == Success(b + (c + (d + [])));
      assert r.value == a + (b + (c + (d + [])));
      assert d + [] == d;
      assert a + (b + (c + d)) == a + b + c + d;
    }
  }

  /**
   * Structuring with four categories: four calls, one per category in the
   * type's order; it fails with the first failing call's error, else lists
   * their events in that order.
   */
  lemma PerCategoryFour<E, P>(t: ResearchType, d: Record, o: StructuringOracles<E, P>)
    requires t.structuring.PerCategory? && |t.structuring.order| == 4
    requires forall i :: 0 <= i < 4 ==> t.structuring.order[i] in d.fields
    requires OnlyHoles(t.structurePrompt, DataHoles)
    ensures var order := t.structuring.order;
            var a := o.chronology(Format(t.structurePrompt, DataArgs(d.fields[order[0]])).value);
            var b := o.chronology(Format(t.structurePrompt, DataArgs(d.fields[order[1]])).value);
            var c := o.chronology(Format(t.structurePrompt, DataArgs(d.fields[order[2]])).value);
            var e := o.chronology(Format(t.structurePrompt, DataArgs(d.fields[order[3]])).value);
            var r := StructureOutput(t, Some(d), o);
            (r.Success? <==> a.Success? && b.Success? && c.Success? && e.Success?)
            && (r.Success? ==> r.value == Events(a.value + b.value + c.value + e.value))
            && (a.Failure? ==> r == Failure(a.error))
            && (a.Success? && b.Failure? ==> r == Failure(b.error))
            && (a.Success? && b.Success? && c.Failure? ==> r == Failure(c.error))
            && (a.Success? && b.Success? && c.Success? && e.Failure? ==> r == Failure(e.error))
  {
    OnlyHolesCovers(t.structurePrompt, DataHoles, DataArgs(""));
    var ps := CategoryPrompts(t.structurePrompt, t.structuring.order, d);
    assert ps.Success?;
    ChronologyCallsFour(ps.value, o.chronology);
  }

  /** The reply of a structuring call, wrapped as the output. */
  function AsReport<E, P>(reply: Result<P, Exception>): (r: Result<StructuredOutput<E, P>, Exception>)
    ensures r.Success? <==> reply.Success?
    ensures r.Success? ==> r.value == Report(reply.value)
  {
    match reply
    case Failure(e) => Failure(e)
    case Success(p) => Success(Report(p))
  }

  /** The single structuring call over the combined text. */
  function CombinedCall<E, P>(t: ResearchType, sections: seq<Section>, data: Record,
                              o: StructuringOracles<E, P>): (r: Result<StructuredOutput<E, P>, Exception>)
    ensures r.Success? ==> r.value.Report? && HasSections(sections, data)
  {
    match CombineSections(sections, data)
    case Failure(e) => Failure(e)
    case Success(combined) =>
      match FormatPrompt(t.structurePrompt, DataArgs(combined))
      case Failure(e) => Failure(e)
      case Success(prompt) =>
        AsReport(o.report(t.outputSchema, prompt))
  }

  /**
   * `structure_output(existing_data)`.  Without data a per-category type
   * answers an empty event list and a single-call type `None`; with data the
   * type makes its structuring calls.
   */
  function StructureOutput<E, P>(t: ResearchType, data: Option<Record>, o: StructuringOracles<E, P>)
    : (r: Result<StructuredOutput<E, P>, Exception>)
    ensures data.None? && t.structuring.PerCategory? ==> r == Success(Events([]))
    ensures data.None? && t.structuring.Combined? ==> r == Success(NoOutput)
    ensures data.Some? && r.Success? ==> (t.structuring.PerCategory? <==> r.value.Events?)
                                         && (t.structuring.Combined? <==> r.value.Report?)
  {
    match data
    case None => if t.structuring.PerCategory? then Success(Events([])) else Success(NoOutput)
    case Some(d) =>
      match t.structuring
      case PerCategory(order) =>
        (match CategoryPrompts(t.structurePrompt, order, d)
         case Failure(e) => Failure(e)
         case Success(prompts) =>
           match ChronologyCalls(prompts, o.chronology)
           case Failure(e) => Failure(e)
           case Success(events) => Success(Events(events)))
      case Combined(sections) => CombinedCall(t, sections, d, o)
  }

  /**
   * A single-call type given a record with all its sections makes exactly one
   * call, on the structure prompt filled with the combined text, and answers
   * that call's reply.
   */
  lemma CombinedStructureOutput<E, P>(t: ResearchType, d: Record, o: StructuringOracles<E, P>)
    requires t.structuring.Combined? && HasSections(t.structuring.sections, d)
    requires OnlyHoles(t.structurePrompt, DataHoles)
    ensures var combined := CombineSections(t.structuring.sections, d).value;
            StructureOutput(t, Some(d), o)
              == AsReport(o.report(t.outputSchema, Format(t.structurePrompt, DataArgs(combined)).value))
  {
    OnlyHolesCovers(t.structurePrompt, DataHoles, DataArgs(CombineSections(t.structuring.sections, d).value));
  }

  /** The combined text of a record of another class fails on the first section it lacks. */
  lemma CombinedRejectsOtherRecord<E, P>(t: ResearchType, d: Record, o: StructuringOracles<E, P>)
    requires t.structuring.Combined? && |t.structuring.sections| > 0
    requires t.structuring.sections[0].field !in d.fields
    ensures StructureOutput(t, Some(d), o) == Failure(AttributeError(d.model, t.structuring.sections[0].field))
  {
  }
}
