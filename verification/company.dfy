/**
 * The company research type: a business profile, accumulated in five
 * categories and structured by one call over their combined text.
 */
module Company {
  import opened Wrappers
  import opened Errors
  import opened State
  import opened Templates
  import opened ResearchTypeBase

  /** `CompanyData`: the five categories, in declaration order. */
  const CompanyData: Schema := Schema("CompanyData", ["overview", "leadership", "products", "financials", "news"])

  /** The sections of the combined text: each field under its header, in field order. */
  const CompanySections: seq<Section> := [
    Section("overview", "Overview"),
    Section("leadership", "Leadership"),
    Section("products", "Products"),
    Section("financials", "Financials"),
    Section("news", "News")]

  /** The supervisor prompt: subject, missing-data summary and last message.  The prompts keep their placeholders, in order; their wording is not modelled. */
  const SupervisorPrompt: Template :=
    [Text("..."),
     Hole("research_subject"),
     Text("..."),
     Hole("data_summary"),
     Text("..."),
     Hole("last_message"),
     Text("...")]

  /** The summarizer prompt: the accumulated data. */
  const SummarizerPrompt: Template :=
    [Text("..."),
     Hole("existing_data"),
     Text("...")]

  /** The structuring prompt: the text to structure. */
  const StructurePrompt: Template :=
    [Text("..."),
     Text("- category: (overview, leadership, products, financials, news)\n"),
     Text("..."),
     Hole("existing_data"),
     Text("...")]

  /** The research type. */
  const Company: ResearchType := ResearchType(
    "company",
    "Company Research",
    Some("company"),
    None,
    SupervisorPrompt,
    SummarizerPrompt,
    StructurePrompt,
    "CompanyProfile",
    CompanyData,
    Combined(CompanySections))

  /** The type meets the interface's contract. */
  lemma CompanyWellFormed()
    ensures WellFormed(Company)
  {
    assert Company.supervisorPrompt[1] == Hole("research_subject");
    assert Company.supervisorPrompt[3] == Hole("data_summary");
    assert Company.supervisorPrompt[5] == Hole("last_message");
    assert Company.summarizerPrompt[1] == Hole("existing_data");
    assert Company.structurePrompt[3] == Hole("existing_data");
  }

  /** The sections follow the schema's fields, in order. */
  lemma CompanySectionsFollowSchema()
    ensures |CompanySections| == |CompanyData.fieldNames|
    ensures forall i :: 0 <= i < |CompanySections| ==> CompanySections[i].field == CompanyData.fieldNames[i]
  {
  }

  /** The combined text: the five fields, each under its header, in field order. */
  lemma CompanyCombinedText(d: Record)
    requires Conforms(d, CompanyData)
    ensures "overview" in d.fields && "leadership" in d.fields && "products" in d.fields
            && "financials" in d.fields && "news" in d.fields
    ensures CombineSections(CompanySections, d) == Success(
              Block("Overview", d.fields["overview"])
              + Block("Leadership", d.fields["leadership"])
              + Block("Products", d.fields["products"])
              + Block("Financials", d.fields["financials"])
              + Block("News", d.fields["news"]))
  {
    CompanySectionsFollowSchema();
    SchemaHasSections(CompanySections, CompanyData, d);
    assert CompanySections[0].field in d.fields && CompanySections[1].field in d.fields && CompanySections[2].field in d.fields
           && CompanySections[3].field in d.fields && CompanySections[4].field in d.fields;
    CombineFive(CompanySections, d);
  }

  /**
   * Structuring a company record: exactly one call, with the `CompanyProfile`
   * schema, on the structure prompt filled with the combined text.
   */
  lemma CompanyStructureOutput<E, P>(d: Record, o: StructuringOracles<E, P>)
    requires Conforms(d, CompanyData)
    ensures HasSections(CompanySections, d)
    ensures StructureOutput(Company, Some(d), o)
            == AsReport(o.report("CompanyProfile",
                 Format(Company.structurePrompt, DataArgs(CombineSections(CompanySections, d).value)).value))
  {
    CompanyWellFormed();
    CombinedStructureOutput(Company, d, o);
  }

  /**
   * The record the chunk-merge pipeline returns is a `CategoriesWithEvents`:
   * structuring it as a company record raises `AttributeError` on its
   * first section.
   */
  lemma CompanyRejectsCategories<E, P>(d: Record, o: StructuringOracles<E, P>)
    requires Conforms(d, CategoriesWithEvents)
    ensures StructureOutput(Company, Some(d), o) == Failure(AttributeError("CategoriesWithEvents", "overview"))
  {
    CombinedRejectsOtherRecord(Company, d, o);
  }
}
