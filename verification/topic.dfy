/**
 * The topic research type: research on a subject area, accumulated in six
 * aspects and structured by one call over their combined text.
 */
module Topic {
  import opened Wrappers
  import opened Errors
  import opened State
  import opened Templates
  import opened ResearchTypeBase

  /** `TopicData`: the six categories, in declaration order. */
  const TopicData: Schema := Schema("TopicData", ["overview", "concepts", "history", "current", "challenges", "future"])

  /** The sections of the combined text: each field under its header, in field order. */
  const TopicSections: seq<Section> := [
    Section("overview", "Overview & Definition"),
    Section("concepts", "Key Concepts"),
    Section("history", "Historical Context"),
    Section("current", "Current State"),
    Section("challenges", "Challenges"),
    Section("future", "Future Directions")]

  /** The supervisor prompt: subject, missing-data summary and last message.  The prompts keep their placeholders, in order; their wording is not modelled. */
  const SupervisorPrompt: Template :=
    [Text("..."),
     Hole("research_subject"),
     Text("..."),
     Hole("data_summary"),
     Text("..."),
     Hole("last_message"),
     Text("...")]

  /** The summarizer prompt: the accumulated data. */
  const SummarizerPrompt: Template :=
    [Text("..."),
     Hole("existing_data"),
     Text("...")]

  /** The structuring prompt: the text to structure. */
  const StructurePrompt: Template :=
    [Text("..."),
     Hole("existing_data"),
     Text("...")]

  /** The research type. */
  const Topic: ResearchType := ResearchType(
    "topic",
    "Topic Research",
    Some("topic"),
    None,
    SupervisorPrompt,
    SummarizerPrompt,
    StructurePrompt,
    "TopicReport",
    TopicData,
    Combined(TopicSections))

  /** The type meets the interface's contract. */
  lemma TopicWellFormed()
    ensures WellFormed(Topic)
  {
    assert Topic.supervisorPrompt[1] == Hole("research_subject");
    assert Topic.supervisorPrompt[3] == Hole("data_summary");
    assert Topic.supervisorPrompt[5] == Hole("last_message");
    assert Topic.summarizerPrompt[1] == Hole("existing_data");
    assert Topic.structurePrompt[1] == Hole("existing_data");
  }

  /** The sections follow the schema's fields, in order. */
  lemma TopicSectionsFollowSchema()
    ensures |TopicSections| == |TopicData.fieldNames|
    ensures forall i :: 0 <= i < |TopicSections| ==> TopicSections[i].field == TopicData.fieldNames[i]
  {
  }

  /** The combined text: the six fields, each under its header, in field order. */
  lemma TopicCombinedText(d: Record)
    requires Conforms(d, TopicData)
    ensures "overview" in d.fields && "concepts" in d.fields && "history" in d.fields
            && "current" in d.fields && "challenges" in d.fields && "future" in d.fields
    ensures CombineSections(TopicSections, d) == Success(
              Block("Overview & Definition", d.fields["overview"])
              + Block("Key Concepts", d.fields["concepts"])
              + Block("Historical Context", d.fields["history"])
              + Block("Current State", d.fields["current"])
              + Block("Challenges", d.fields["challenges"])
              + Block("Future Directions", d.fields["future"]))
  {
    TopicSectionsFollowSchema();
    SchemaHasSections(TopicSections, TopicData, d);
    assert TopicSections[0].field in d.fields && TopicSections[1].field in d.fields && TopicSections[2].field in d.fields
           && TopicSections[3].field in d.fields && TopicSections[4].field in d.fields && TopicSections[5].field in d.fields;
    CombineSix(TopicSections, d);
  }

  /**
   * Structuring a topic record: exactly one call, with the `TopicReport`
   * schema, on the structure prompt filled with the combined text.
   */
  lemma TopicStructureOutput<E, P>(d: Record, o: StructuringOracles<E, P>)
    requires Conforms(d, TopicData)
    ensures HasSections(TopicSections, d)
    ensures StructureOutput(Topic, Some(d), o)
            == AsReport(o.report("TopicReport",
                 Format(Topic.structurePrompt, DataArgs(CombineSections(TopicSections, d).value)).value))
  {
    TopicWellFormed();
    CombinedStructureOutput(Topic, d, o);
  }

  /**
   * The record the chunk-merge pipeline returns is a `CategoriesWithEvents`:
   * structuring it as a topic record raises `AttributeError` on its
   * first section.
   */
  lemma TopicRejectsCategories<E, P>(d: Record, o: StructuringOracles<E, P>)
    requires Conforms(d, CategoriesWithEvents)
    ensures StructureOutput(Topic, Some(d), o) == Failure(AttributeError("CategoriesWithEvents", "overview"))
  {
    CombinedRejectsOtherRecord(Topic, d, o);
  }
}
