/**
 * The people research type: a profile of an individual, accumulated in six
 * information categories and structured by one call over their combined text.
 */
module People {
  import opened Wrappers
  import opened Errors
  import opened State
  import opened Templates
  import opened ResearchTypeBase

  /** `PeopleData`: the six information categories, in declaration order. */
  const PeopleData: Schema := Schema("PeopleData",
    ["demographics", "professional", "relationships", "public_presence", "achievements", "controversies"])

  /** The sections of the combined text: each field under its header, in field order. */
  const PeopleSections: seq<Section> := [
    Section("demographics", "Demographics"),
    Section("professional", "Professional"),
    Section("relationships", "Relationships"),
    Section("public_presence", "Public Presence"),
    Section("achievements", "Achievements"),
    Section("controversies", "Controversies")]

  /** The supervisor prompt: subject, missing-data summary and last message.  The prompts keep their placeholders, in order; their wording is not modelled. */
  const SupervisorPrompt: Template :=
    [Text("..."),
     Hole("research_subject"),
     Text("..."),
     Hole("data_summary"),
     Text("..."),
     Hole("last_message"),
     Text("...")]

  /** The summarizer prompt: the accumulated data. */
  const SummarizerPrompt: Template :=
    [Text("..."),
     Hole("existing_data"),
     Text("...")]

  /** The structuring prompt: the text to structure. */
  const StructurePrompt: Template :=
    [Text("..."),
     Hole("existing_data"),
     Text("...")]

  /** The research type. */
  const People: ResearchType := ResearchType(
    "people",
    "People Research",
    Some("person"),
    None,
    SupervisorPrompt,
    SummarizerPrompt,
    StructurePrompt,
    "PeopleProfile",
    PeopleData,
    Combined(PeopleSections))

  /** The type meets the interface's contract. */
  lemma PeopleWellFormed()
    ensures WellFormed(People)
  {
    assert People.supervisorPrompt[1] == Hole("research_subject");
    assert People.supervisorPrompt[3] == Hole("data_summary");
    assert People.supervisorPrompt[5] == Hole("last_message");
    assert People.summarizerPrompt[1] == Hole("existing_data");
    assert People.structurePrompt[1] == Hole("existing_data");
  }

  /** The sections follow the schema's fields, in order. */
  lemma PeopleSectionsFollowSchema()
    ensures |PeopleSections| == |PeopleData.fieldNames|
    ensures forall i :: 0 <= i < |PeopleSections| ==> PeopleSections[i].field == PeopleData.fieldNames[i]
  {
  }

  /** The combined text: the six fields, each under its header, in field order. */
  lemma PeopleCombinedText(d: Record)
    requires Conforms(d, PeopleData)
    ensures "demographics" in d.fields && "professional" in d.fields && "relationships" in d.fields
            && "public_presence" in d.fields && "achievements" in d.fields && "controversies" in d.fields
    ensures CombineSections(PeopleSections, d) == Success(
              Block("Demographics", d.fields["demographics"])
              + Block("Professional", d.fields["professional"])
              + Block("Relationships", d.fields["relationships"])
              + Block("Public Presence", d.fields["public_presence"])
              + Block("Achievements", d.fields["achievements"])
              + Block("Controversies", d.fields["controversies"]))
  {
    PeopleSectionsFollowSchema();
    SchemaHasSections(PeopleSections, PeopleData, d);
    assert PeopleSections[0].field in d.fields && PeopleSections[1].field in d.fields && PeopleSections[2].field in d.fields
           && PeopleSections[3].field in d.fields && PeopleSections[4].field in d.fields && PeopleSections[5].field in d.fields;
    CombineSix(PeopleSections, d);
  }

  /**
   * Structuring a people record: exactly one call, with the `PeopleProfile`
   * schema, on the structure prompt filled with the combined text.
   */
  lemma PeopleStructureOutput<E, P>(d: Record, o: StructuringOracles<E, P>)
    requires Conforms(d, PeopleData)
    ensures HasSections(PeopleSections, d)
    ensures StructureOutput(People, Some(d), o)
            == AsReport(o.report("PeopleProfile",
                 Format(People.structurePrompt, DataArgs(CombineSections(PeopleSections, d).value)).value))
  {
    PeopleWellFormed();
    CombinedStructureOutput(People, d, o);
  }

  /**
   * The record the chunk-merge pipeline returns is a `CategoriesWithEvents`:
   * structuring it as a people record raises `AttributeError` on its first
   * section.
   */
  lemma PeopleRejectsCategories<E, P>(d: Record, o: StructuringOracles<E, P>)
    requires Conforms(d, CategoriesWithEvents)
    ensures StructureOutput(People, Some(d), o) == Failure(AttributeError("CategoriesWithEvents", "demographics"))
  {
    CombinedRejectsOtherRecord(People, d, o);
  }
}
