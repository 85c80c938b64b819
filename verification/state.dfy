/**
 * Shared state shapes of the research agent: the list reducer of the
 * conversation history, the string-field records that hold accumulated
 * research, the biography category record and the supervisor state with the
 * defaults its readers fall back to.
 */
module State {
  import opened Wrappers
  import opened Errors

  // ---------------------------------------------------------------------
  // The override reducer
  // ---------------------------------------------------------------------

  /** The Python values a reducer can be handed: opaque items, strings, lists and dicts. */
  datatype Value<T> =
    | Atom(item: T)
    | Str(s: string)
    | List(items: seq<Value<T>>)
    | Dict(entries: map<string, Value<T>>)

  /** `isinstance(v, dict) and v.get("type") == "override"`. */
  predicate IsOverride<T>(v: Value<T>) {
    v.Dict? && "type" in v.entries && v.entries["type"].Str? && v.entries["type"].s == "override"
  }

  /** `operator.add`: list and string concatenation; any other pair raises `TypeError`. */
  function Add<T>(a: Value<T>, b: Value<T>): Result<Value<T>, Exception> {
    if a.List? && b.List? then Success(List(a.items + b.items))
    else if a.Str? && b.Str? then Success(Str(a.s + b.s))
    else Failure(TypeError)
  }

  /** A new value tagged as an override replaces the current one; anything else is appended. */
  function OverrideReducer<T>(current: Value<T>, update: Value<T>): (r: Result<Value<T>, Exception>)
    ensures IsOverride(update) && "value" in update.entries ==> r == Success(update.entries["value"])
    ensures IsOverride(update) && "value" !in update.entries ==> r == Success(update)
    ensures !IsOverride(update) && current.List? && update.List? ==>
              r.Success? && r.value.List?
              && |r.value.items| == |current.items| + |update.items|
              && current.items <= r.value.items
              && r.value.items[|current.items|..] == update.items
    ensures !IsOverride(update) && !(current.List? && update.List?) && !(current.Str? && update.Str?) ==>
              r == Failure(TypeError)
  {
    if IsOverride(update) then
      Success(if "value" in update.entries then update.entries["value"] else update)
    else
      Add(current, update)
  }

  /** A Python list of opaque items. */
  function AsList<T>(xs: seq<T>): (v: Value<T>)
    ensures v.List? && |v.items| == |xs|
  {
    List(seq(|xs|, i requires 0 <= i < |xs| => Atom(xs[i])))
  }

  /** Appending a list of items through the reducer is list concatenation. */
  lemma ReducerAppends<T>(xs: seq<T>, ys: seq<T>)
    ensures OverrideReducer(AsList(xs), AsList(ys)) == Success(AsList(xs + ys))
  {
    assert !IsOverride(AsList(ys));
    assert AsList(xs).items + AsList(ys).items == AsList(xs + ys).items;
  }

  // ---------------------------------------------------------------------
  // Records with string fields
  // ---------------------------------------------------------------------

  /** A pydantic model whose fields are all strings defaulting to "": its class name and field order. */
  datatype Schema = Schema(model: string, fieldNames: seq<string>)

  /** An instance of such a model. */
  datatype Record = Record(model: string, fields: map<string, string>)

  /** The record is an instance of the schema: same class, exactly its fields. */
  predicate Conforms(r: Record, s: Schema) {
    r.model == s.model && r.fields.Keys == set f | f in s.fieldNames
  }

  /**
   * `Model(**kwargs)`: every declared field takes its keyword argument, or ""
   * when there is none; unknown keywords are ignored.
   */
  function Instantiate(s: Schema, kwargs: map<string, string>): (r: Record)
    ensures Conforms(r, s)
    ensures forall f :: f in s.fieldNames ==> r.fields[f] == if f in kwargs then kwargs[f] else ""
  {
    Record(s.model, map f | f in s.fieldNames :: if f in kwargs then kwargs[f] else "")
  }

  /** `getattr(r, name, default)`. */
  function GetAttrOr(r: Record, name: string, default: string): string {
    if name in r.fields then r.fields[name] else default
  }

  /** `r.name`: raises `AttributeError` when the class has no such field. */
  function Attr(r: Record, name: string): (v: Result<string, Exception>)
    ensures v.Success? <==> name in r.fields
    ensures v.Success? ==> v.value == r.fields[name]
    ensures v.Failure? ==> v.error == AttributeError(r.model, name)
  {
    if name in r.fields then Success(r.fields[name]) else Failure(AttributeError(r.model, name))
  }

  /** The record built with no arguments: every declared field is present and empty. */
  lemma InstantiateEmpty(s: Schema)
    ensures Conforms(Instantiate(s, map[]), s)
    ensures forall f :: f in s.fieldNames ==> Instantiate(s, map[]).fields[f] == ""
  {
  }

  /** Rebuilding a record from its own fields gives the record back. */
  lemma InstantiateFromFields(r: Record, s: Schema)
    requires Conforms(r, s)
    ensures Instantiate(s, r.fields) == r
  {
    var b := Instantiate(s, r.fields);
    assert b.fields.Keys == r.fields.Keys;
    assert forall f :: f in b.fields ==> b.fields[f] == r.fields[f];
  }

  /** Construction reads only the declared fields: arguments that agree on them build the same record. */
  lemma InstantiateReadsDeclared(s: Schema, a: map<string, string>, b: map<string, string>)
    requires forall f :: f in s.fieldNames ==> (f in a <==> f in b) && (f in a ==> a[f] == b[f])
    ensures Instantiate(s, a) == Instantiate(s, b)
  {
    assert Instantiate(s, a).fields == Instantiate(s, b).fields;
  }

  // ---------------------------------------------------------------------
  // The biography categories
  // ---------------------------------------------------------------------

  /** `CategoriesWithEvents`: the four life-phase texts, in declaration order. */
  const CategoriesWithEvents: Schema := Schema("CategoriesWithEvents", ["early", "personal", "career", "legacy"])

  /** `CategoriesWithEvents(early="", personal="", career="", legacy="")`. */
  function EmptyCategories(): (r: Record)
    ensures Conforms(r, CategoriesWithEvents)
    ensures r.fields == map["early" := "", "personal" := "", "career" := "", "legacy" := ""]
  {
    Instantiate(CategoriesWithEvents, map["early" := "", "personal" := "", "career" := "", "legacy" := ""])
  }

  // ---------------------------------------------------------------------
  // The supervisor state
  // ---------------------------------------------------------------------

  /**
   * The supervisor graph's state.  Keys the input may leave out are options;
   * the nodes read them through the accessors below.  `M` is the message type
   * of the conversation history.
   */
  datatype SupervisorState<M> = SupervisorState(
    researchSubject: string,
    researchType: Option<string>,
    existingData: Option<Record>,
    usedDomains: Option<seq<string>>,
    dataSummary: Option<string>,
    conversationHistory: seq<M>,
    iterationCount: Option<int>)

  /** The declared defaults of the optional keys. */
  const UsedDomainsDefault: seq<string> := []
  const DataSummaryDefault: string := ""
  const IterationCountDefault: int := 0
  const ResearchTypeDefault: string := "biography"

  function UsedDomains<M>(s: SupervisorState<M>): seq<string> { s.usedDomains.GetOr(UsedDomainsDefault) }
  function DataSummary<M>(s: SupervisorState<M>): string { s.dataSummary.GetOr(DataSummaryDefault) }
  function IterationCount<M>(s: SupervisorState<M>): int { s.iterationCount.GetOr(IterationCountDefault) }
  function ResearchTypeName<M>(s: SupervisorState<M>): string { s.researchType.GetOr(ResearchTypeDefault) }

  /** The state a run starts from: only the subject and the research type are given. */
  function StartState<M>(subject: string, researchType: string): (s: SupervisorState<M>)
    ensures s.existingData == None && s.conversationHistory == []
    ensures UsedDomains(s) == [] && DataSummary(s) == "" && IterationCount(s) == 0
    ensures ResearchTypeName(s) == researchType
  {
    SupervisorState(subject, Some(researchType), None, None, None, [], None)
  }
}
