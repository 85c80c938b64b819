/**
 * The biography research type: the life of a person, accumulated in the four
 * life-phase categories and structured into a chronology by one call per
 * category.
 */
module Biography {
  import opened Wrappers
  import opened Errors
  import opened State
  import opened Templates
  import opened ResearchTypeBase

  /** The order of the structuring calls and of their events: not the field order. */
  const StructuringOrder: seq<string> := ["early", "career", "personal", "legacy"]

  /** The supervisor prompt: subject, missing-data summary and last message.  The prompts keep their placeholders, in order; their wording is not modelled. */
  const SupervisorPrompt: Template :=
    [Text("..."),
     Hole("research_subject"),
     Text("..."),
     Hole("data_summary"),
     Text("..."),
     Hole("last_message"),
     Text("...")]

  /** The summarizer prompt: the accumulated data. */
  const SummarizerPrompt: Template :=
    [Text("..."),
     Hole("existing_data"),
     Text("...")]

  /** The structuring prompt: the text to structure. */
  const StructurePrompt: Template :=
    [Text("..."),
     Hole("existing_data"),
     Text("...")]

  /** The research type. */
  const Biography: ResearchType := ResearchType(
    "biography",
    "Biography",
    Some("person"),
    None,
    SupervisorPrompt,
    SummarizerPrompt,
    StructurePrompt,
    "Chronology",
    CategoriesWithEvents,
    PerCategory(StructuringOrder))

  /** The type meets the interface's contract. */
  lemma BiographyWellFormed()
    ensures WellFormed(Biography)
  {
    assert Biography.supervisorPrompt[1] == Hole("research_subject");
    assert Biography.supervisorPrompt[3] == Hole("data_summary");
    assert Biography.supervisorPrompt[5] == Hole("last_message");
    assert Biography.summarizerPrompt[1] == Hole("existing_data");
    assert Biography.structurePrompt[1] == Hole("existing_data");
  }

  /** The structure prompt filled with one category's text. */
  function CategoryPrompt(d: Record, category: string): string
    requires category in d.fields
  {
    Format(Biography.structurePrompt, DataArgs(d.fields[category])).value
  }

  /**
   * Structuring a biography record: exactly four calls, one per category in
   * the order early, career, personal, legacy; it fails with the error of the
   * first call that fails, and otherwise lists the events of the four
   * replies in that order.
   */
  lemma BiographyStructureOutput<E, P>(d: Record, o: StructuringOracles<E, P>)
    requires Conforms(d, CategoriesWithEvents)
    ensures "early" in d.fields && "career" in d.fields && "personal" in d.fields && "legacy" in d.fields
    ensures var early, career := o.chronology(CategoryPrompt(d, "early")), o.chronology(CategoryPrompt(d, "career"));
            var personal, legacy := o.chronology(CategoryPrompt(d, "personal")), o.chronology(CategoryPrompt(d, "legacy"));
            var r := StructureOutput(Biography, Some(d), o);
            (r.Success? <==> early.Success? && career.Success? && personal.Success? && legacy.Success?)
            && (r.Success? ==> r.value == Events(early.value + career.value + personal.value + legacy.value))
            && (early.Failure? ==> r == Failure(early.error))
            && (early.Success? && career.Failure? ==> r == Failure(career.error))
            && (early.Success? && career.Success? && personal.Failure? ==> r == Failure(personal.error))
            && (early.Success? && career.Success? && personal.Success? && legacy.Failure? ==> r == Failure(legacy.error))
  {
    BiographyWellFormed();
    PerCategoryFour(Biography, d, o);
  }
}
