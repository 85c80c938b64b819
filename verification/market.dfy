/**
 * The market research type: a market analysis, accumulated in five
 * categories and structured by one call over their combined text.
 */
module Market {
  import opened Wrappers
  import opened Errors
  import opened State
  import opened Templates
  import opened ResearchTypeBase

  /** `MarketData`: the five categories, in declaration order. */
  const MarketData: Schema := Schema("MarketData", ["overview", "players", "trends", "challenges", "outlook"])

  /** The sections of the combined text: each field under its header, in field order. */
  const MarketSections: seq<Section> := [
    Section("overview", "Market Overview"),
    Section("players", "Key Players"),
    Section("trends", "Trends & Drivers"),
    Section("challenges", "Challenges"),
    Section("outlook", "Future Outlook")]

  /** The supervisor prompt: subject, missing-data summary and last message.  The prompts keep their placeholders, in order; their wording is not modelled. */
  const SupervisorPrompt: Template :=
    [Text("..."),
     Hole("research_subject"),
     Text("..."),
     Hole("data_summary"),
     Text("..."),
     Hole("last_message"),
     Text("...")]

  /** The summarizer prompt: the accumulated data. */
  const SummarizerPrompt: Template :=
    [Text("..."),
     Hole("existing_data"),
     Text("...")]

  /** The structuring prompt: the text to structure. */
  const StructurePrompt: Template :=
    [Text("..."),
     Text("- category: (overview, players, trends, challenges, outlook)\n"),
     Text("..."),
     Hole("existing_data"),
     Text("...")]

  /** The research type. */
  const Market: ResearchType := ResearchType(
    "market",
    "Market Research",
    Some("market"),
    None,
    SupervisorPrompt,
    SummarizerPrompt,
    StructurePrompt,
    "MarketReport",
    MarketData,
    Combined(MarketSections))

  /** The type meets the interface's contract. */
  lemma MarketWellFormed()
    ensures WellFormed(Market)
  {
    assert Market.supervisorPrompt[1] == Hole("research_subject");
    assert Market.supervisorPrompt[3] == Hole("data_summary");
    assert Market.supervisorPrompt[5] == Hole("last_message");
    assert Market.summarizerPrompt[1] == Hole("existing_data");
    assert Market.structurePrompt[3] == Hole("existing_data");
  }

  /** The sections follow the schema's fields, in order. */
  lemma MarketSectionsFollowSchema()
    ensures |MarketSections| == |MarketData.fieldNames|
    ensures forall i :: 0 <= i < |MarketSections| ==> MarketSections[i].field == MarketData.fieldNames[i]
  {
  }

  /** The combined text: the five fields, each under its header, in field order. */
  lemma MarketCombinedText(d: Record)
    requires Conforms(d, MarketData)
    ensures "overview" in d.fields && "players" in d.fields && "trends" in d.fields
            && "challenges" in d.fields && "outlook" in d.fields
    ensures CombineSections(MarketSections, d) == Success(
              Block("Market Overview", d.fields["overview"])
              + Block("Key Players", d.fields["players"])
              + Block("Trends & Drivers", d.fields["trends"])
              + Block("Challenges", d.fields["challenges"])
              + Block("Future Outlook", d.fields["outlook"]))
  {
    MarketSectionsFollowSchema();
    SchemaHasSections(MarketSections, MarketData, d);
    assert MarketSections[0].field in d.fields && MarketSections[1].field in d.fields && MarketSections[2].field in d.fields
           && MarketSections[3].field in d.fields && MarketSections[4].field in d.fields;
    CombineFive(MarketSections, d);
  }

  /**
   * Structuring a market record: exactly one call, with the `MarketReport`
   * schema, on the structure prompt filled with the combined text.
   */
  lemma MarketStructureOutput<E, P>(d: Record, o: StructuringOracles<E, P>)
    requires Conforms(d, MarketData)
    ensures HasSections(MarketSections, d)
    ensures StructureOutput(Market, Some(d), o)
            == AsReport(o.report("MarketReport",
                 Format(Market.structurePrompt, DataArgs(CombineSections(MarketSections, d).value)).value))
  {
    MarketWellFormed();
    CombinedStructureOutput(Market, d, o);
  }

  /**
   * The record the chunk-merge pipeline returns is a `CategoriesWithEvents`:
   * structuring it as a market record raises `AttributeError` on its
   * first section.
   */
  lemma MarketRejectsCategories<E, P>(d: Record, o: StructuringOracles<E, P>)
    requires Conforms(d, CategoriesWithEvents)
    ensures StructureOutput(Market, Some(d), o) == Failure(AttributeError("CategoriesWithEvents", "overview"))
  {
    CombinedRejectsOtherRecord(Market, d, o);
  }
}
